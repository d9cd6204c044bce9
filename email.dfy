/** Outgoing mail (lib/email.ts): the transporter created once and reused,
    `sendEmail` with its sender line, its plain-text fallback and its single
    error, and the two mails the account routes send.  The SMTP transport
    is left out: whether a delivery succeeds is a parameter. */
module Email {
  import opened Common

  /** A tag as `/<[^>]+>/` finds it at `i`: `<`, at least one character
      other than `>`, then a `>`. */
  predicate TagAt(s: string, i: int)
    requires 0 <= i < |s|
  {
    s[i] == '<' && i + 1 < |s| && s[i + 1] != '>' && '>' in s[i + 2..]
  }

  predicate TagFree(s: string) {
    forall i :: 0 <= i < |s| ==> !TagAt(s, i)
  }

  /** The first `>` at or after `from`. */
  function NextGt(s: string, from: nat): (k: nat)
    requires from <= |s| && '>' in s[from..]
    ensures from <= k < |s| && s[k] == '>' && '>' !in s[from..k]
    decreases |s| - from
  {
    if s[from] == '>' then from
    else
      assert s[from..] == [s[from]] + s[from + 1..];
      var k := NextGt(s, from + 1);
      assert s[from..k] == [s[from]] + s[from + 1..k];
      k
  }

  /** `html.replace(/<[^>]+>/g, "")`: scanning from the left, each tag is
      cut out from its `<` to the first `>` after it; everything else is
      kept in order. */
  function StripTags(s: string): (r: string)
    ensures |r| <= |s|
    ensures forall c :: c in r ==> c in s
    decreases |s|
  {
    if s == [] then []
    else if TagAt(s, 0) then StripTags(s[NextGt(s, 1) + 1..])
    else [s[0]] + StripTags(s[1..])
  }

  lemma {:induction false} TagAtShift(x: char, s: string, i: int)
    requires 0 <= i < |s|
    ensures TagAt([x] + s, i + 1) <==> TagAt(s, i)
  {
    var t := [x] + s;
    assert t[i + 1] == s[i];
    if i + 1 < |s| {
      assert t[i + 2] == s[i + 1];
      assert t[i + 3..] == s[i + 2..];
    }
  }

  /** Nothing the pattern matches is left behind. */
  lemma {:induction false} StripTagsLeavesNoTag(s: string)
    ensures TagFree(StripTags(s))
    decreases |s|
  {
    if s == [] {
    } else if TagAt(s, 0) {
      StripTagsLeavesNoTag(s[NextGt(s, 1) + 1..]);
    } else {
      var rest := StripTags(s[1..]);
      StripTagsLeavesNoTag(s[1..]);
      var r := [s[0]] + rest;
      assert r == StripTags(s);
      forall i | 0 <= i < |r| ensures !TagAt(r, i) {
        if i == 0 {
          if s[0] == '<' && |s| > 1 {
            if s[1] == '>' {
              assert !TagAt(s[1..], 0);
              assert rest == [s[1]] + StripTags(s[2..]) by {
                assert s[1..][1..] == s[2..];
              }
              assert r[1] == '>';
            } else {
              assert '>' !in s[2..];
              assert '>' !in s[1..];
              assert r[2..] == rest[1..];
              assert forall c :: c in rest[1..] ==> c in rest;
            }
          }
        } else {
          TagAtShift(s[0], rest, i - 1);
        }
      }
    }
  }

  /** Text with no tag passes through unchanged. */
  lemma {:induction false} StripTagsKeepsTagFree(s: string)
    requires TagFree(s)
    ensures StripTags(s) == s
    decreases |s|
  {
    if s != [] {
      assert !TagAt(s, 0);
      forall i | 0 <= i < |s| - 1 ensures !TagAt(s[1..], i) {
        assert s == [s[0]] + s[1..];
        TagAtShift(s[0], s[1..], i);
      }
      StripTagsKeepsTagFree(s[1..]);
    }
  }

  /** So stripping twice strips nothing more. */
  lemma StripTagsIdempotent(s: string)
    ensures StripTags(StripTags(s)) == StripTags(s)
  {
    StripTagsLeavesNoTag(s);
    StripTagsKeepsTagFree(StripTags(s));
  }

  lemma StripTagsExample()
    ensures StripTags("<b>Hi</b>") == "Hi"
  {
    var s := "<b>Hi</b>";
    assert s[0] == '<' && s[1] == 'b' && s[2] == '>';
    assert NextGt(s, 1) == 2;
    var t := s[3..];
    assert t == "Hi</b>";
    assert StripTags(s) == StripTags(t);
    assert t[0] == 'H' && StripTags(t) == "H" + StripTags(t[1..]);
    var v := t[1..];
    assert v[0] == 'i' && StripTags(v) == "i" + StripTags(v[1..]);
    var u := v[1..];
    assert u == "</b>";
    assert u[0] == '<' && u[1] == '/' && u[3] == '>' && NextGt(u, 1) == 3;
    assert StripTags(u) == StripTags(u[4..]) && u[4..] == [];
  }

  /** The plain-text part: the caller's text when it is a non-empty
      string, or else the HTML with its tags stripped. */
  function PlainText(text: Option<string>, html: string): (r: string)
    ensures Present(text) ==> r == text.value
    ensures !Present(text) ==> r == StripTags(html) && TagFree(r)
  {
    if Present(text) then text.value
    else
      StripTagsLeavesNoTag(html);
      StripTags(html)
  }

  /** The sender line, `"DevMatch" <address>`. */
  function From(sender: string): (r: string)
    ensures StartsWith(r, "\"DevMatch\" <") && |r| == |sender| + 13 && r[|r| - 1] == '>'
    ensures r[12..|r| - 1] == sender
  {
    "\"DevMatch\" <" + sender + ">"
  }

  /** Distinct addresses give distinct sender lines. */
  lemma FromInjective(a: string, b: string)
    requires From(a) == From(b)
    ensures a == b
  {
    assert a == From(a)[12..|From(a)| - 1];
  }

  datatype Mail = Mail(from: string, to: string, subject: string, text: string, html: string)

  const TransportFailure := "Failed to send email"

  const VerificationSubject := "Verify your DevMatch account"
  const ResetSubject := "Reset your DevMatch password"

  const VerificationHead := "<div><h2>DevMatch Account Verification</h2><p>Please use the following code to verify your account:</p><p>"
  const VerificationTail := "</p><p>This code will expire in 10 minutes.</p><p>If you didn't request this, please ignore this email.</p></div>"

  /** The verification mail's markup around the code (styling left out). */
  function VerificationHtml(otp: string): (h: string)
    ensures Contains(h, otp)
  {
    ContainsMiddle(VerificationHead, otp, VerificationTail);
    VerificationHead + otp + VerificationTail
  }

  const ResetHead := "<div><h2>DevMatch Password Reset</h2><p>We received a request to reset your password. Click the link below to proceed:</p><p><a href=\""
  const ResetMiddle := "\">Reset Password</a></p><p>If the button doesn't work, copy and paste this URL in your browser:</p><p>"
  const ResetTail := "</p><p>If you didn't request this, please ignore this email.</p></div>"

  /** The reset mail's markup: the link twice, as the button's target and
      written out (styling left out). */
  function ResetHtml(resetUrl: string): (h: string)
    ensures Contains(h, resetUrl)
  {
    var written := ResetMiddle + resetUrl + ResetTail;
    ContainsMiddle(ResetHead, resetUrl, written);
    ResetHead + resetUrl + written
  }

  const ResetTextHead := "To reset your password, visit this link: "
  const ResetTextTail := "\n\nIf you didn't request this, please ignore this email."

  /** The reset mail's own plain text. */
  function ResetText(resetUrl: string): (t: string)
    ensures Contains(t, resetUrl)
    ensures t != ""
  {
    ContainsMiddle(ResetTextHead, resetUrl, ResetTextTail);
    ResetTextHead + resetUrl + ResetTextTail
  }

  /** The module state: the memoised transporter (a handle), how many were
      ever created, and the mails handed to it. */
  class Mailer {
    const sender: string
    var transporter: Option<nat>
    var creations: nat
    var delivered: seq<Mail>

    predicate Valid()
      reads this
    {
      creations == (if transporter.Some? then 1 else 0)
    }

    constructor (sender: string)
      ensures Valid() && this.sender == sender && transporter.None? && delivered == []
    {
      this.sender := sender;
      transporter, creations, delivered := None, 0, [];
    }

    /** `getTransporter`: the first call creates the transporter, every
        later call hands back the same one. */
    method GetTransporter(created: nat) returns (t: nat)
      requires Valid()
      modifies this
      ensures Valid() && transporter == Some(t) && delivered == old(delivered)
      ensures old(transporter).Some? ==> t == old(transporter).value && creations == old(creations)
      ensures old(transporter).None? ==> t == created
    {
      if transporter.Some? {
        return transporter.value;
      }
      transporter := Some(created);
      creations := creations + 1;
      return created;
    }

    /** `sendEmail`.  `transportOk` is whether `sendMail` resolves; a
        failure of any kind becomes the one error it rethrows. */
    method SendEmail(to: string, subject: string, html: string, text: Option<string>, created: nat, transportOk: bool)
      returns (thrown: Option<string>)
      requires Valid()
      modifies this
      ensures Valid() && transporter.Some? && creations <= 1
      ensures transportOk ==>
                thrown.None? && delivered == old(delivered) + [Mail(From(sender), to, subject, PlainText(text, html), html)]
      ensures !transportOk ==> thrown == Some(TransportFailure) && delivered == old(delivered)
    {
      var t := GetTransporter(created);
      if !transportOk {
        return Some(TransportFailure);
      }
      delivered := delivered + [Mail(From(sender), to, subject, PlainText(text, html), html)];
      return None;
    }

    /** `sendVerificationEmail`: the code in the HTML, no text of its own,
        and the transport error passed on. */
    method SendVerificationEmail(email: string, otp: string, created: nat, transportOk: bool)
      returns (thrown: Option<string>)
      requires Valid()
      modifies this
      ensures Valid()
      ensures transportOk ==>
                && thrown.None?
                && delivered == old(delivered) + [Mail(From(sender), email, VerificationSubject,
                                                       StripTags(VerificationHtml(otp)), VerificationHtml(otp))]
      ensures !transportOk ==> thrown == Some(TransportFailure) && delivered == old(delivered)
    {
      thrown := SendEmail(email, VerificationSubject, VerificationHtml(otp), None, created, transportOk);
    }

    /** `sendResetPasswordEmail`: never throws; reports whether the mail
        went out. */
    method SendResetPasswordEmail(email: string, resetUrl: string, created: nat, transportOk: bool)
      returns (success: bool)
      requires Valid()
      modifies this
      ensures Valid() && success == transportOk
      ensures success ==>
                delivered == old(delivered) + [Mail(From(sender), email, ResetSubject, ResetText(resetUrl), ResetHtml(resetUrl))]
      ensures !success ==> delivered == old(delivered)
    {
      var thrown := SendEmail(email, ResetSubject, ResetHtml(resetUrl), Some(ResetText(resetUrl)), created, transportOk);
      success := thrown.None?;
    }
  }
}
