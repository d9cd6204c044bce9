/** Shared vocabulary: optional values, opaque document ids and the few
    string predicates (prefix, substring, ASCII case folding) that the
    routes and middlewares use. */
module Common {

  datatype Option<T> = None | Some(value: T)

  /** Opaque document identifier (a Mongo ObjectId in its string form). */
  type Id = string

  /** JavaScript truthiness of an optional string: absent and "" are falsy. */
  predicate Present(s: Option<string>) {
    s.Some? && s.value != ""
  }

  predicate StartsWith(s: string, prefix: string) {
    |prefix| <= |s| && s[..|prefix|] == prefix
  }

  /** `s.includes(sub)`: some suffix of `s` starts with `sub`. */
  predicate Contains(s: string, sub: string)
    decreases |s|
  {
    StartsWith(s, sub) || (|s| > 0 && Contains(s[1..], sub))
  }

  lemma {:induction false} ContainsAt(s: string, sub: string, i: nat)
    requires i + |sub| <= |s| && s[i..i + |sub|] == sub
    ensures Contains(s, sub)
    decreases i
  {
    if i > 0 {
      assert s[1..][i - 1..i - 1 + |sub|] == sub;
      ContainsAt(s[1..], sub, i - 1);
    }
  }

  /** A text built around `sub` contains it. */
  lemma ContainsMiddle(before: string, sub: string, after: string)
    ensures Contains(before + sub + after, sub)
  {
    var s := before + sub + after;
    assert s[|before|..|before| + |sub|] == sub;
    ContainsAt(s, sub, |before|);
  }

  lemma {:induction false} ContainsWitness(s: string, sub: string) returns (i: nat)
    requires Contains(s, sub)
    ensures i + |sub| <= |s| && s[i..i + |sub|] == sub
    decreases |s|
  {
    if StartsWith(s, sub) {
      i := 0;
    } else {
      var j := ContainsWitness(s[1..], sub);
      i := j + 1;
      assert s[i..i + |sub|] == s[1..][j..j + |sub|];
    }
  }

  /** ASCII lower-casing; other characters are left alone, as a
      case-insensitive JavaScript regex without the `u` flag does. */
  function LowerChar(c: char): (r: char)
    ensures 'A' <= c <= 'Z' ==> 'a' <= r <= 'z'
    ensures !('A' <= c <= 'Z') ==> r == c
  {
    if 'A' <= c <= 'Z' then (c as int + 32) as char else c
  }

  function Lower(s: string): (r: string)
    ensures |r| == |s|
    ensures forall i :: 0 <= i < |s| ==> r[i] == LowerChar(s[i])
  {
    seq(|s|, i requires 0 <= i < |s| => LowerChar(s[i]))
  }

  /** Every finite set of ids leaves some id unused, so a store can always
      hand out a fresh one. */
  lemma FreshIdExists(used: set<Id>)
    ensures exists id: Id :: id !in used
  {
    var n := LongerThanAll(used);
    var id: Id := seq(n, _ => 'x');
    assert id !in used;
  }

  lemma {:induction false} LongerThanAll(used: set<Id>) returns (n: nat)
    ensures forall u :: u in used ==> |u| < n
    decreases used
  {
    if used == {} {
      n := 0;
    } else {
      var u :| u in used;
      var m := LongerThanAll(used - {u});
      n := if m > |u| then m else |u| + 1;
    }
  }

  /** The set of distinct entries of a list: `Array.from(new Set(xs))`,
      which keeps first occurrences in order; the contract states the
      entries, their distinctness and the first entry. */
  function Dedup(xs: seq<Id>): (r: seq<Id>)
    ensures forall x :: x in r <==> x in xs
    ensures forall i, j :: 0 <= i < j < |r| ==> r[i] != r[j]
    ensures |r| <= |xs|
    ensures |xs| > 0 ==> |r| > 0 && r[0] == xs[0]
  {
    DedupFrom([], xs)
  }

  function {:tailrecursion} DedupFrom(acc: seq<Id>, xs: seq<Id>): (r: seq<Id>)
    requires forall i, j :: 0 <= i < j < |acc| ==> acc[i] != acc[j]
    ensures forall x :: x in r <==> x in acc || x in xs
    ensures forall i, j :: 0 <= i < j < |r| ==> r[i] != r[j]
    ensures |r| <= |acc| + |xs|
    ensures |r| >= |acc| && r[..|acc|] == acc
    decreases |xs|
  {
    if xs == [] then acc
    else if xs[0] in acc then DedupFrom(acc, xs[1..])
    else DedupFrom(acc + [xs[0]], xs[1..])
  }

  /** The sockets that have joined `room`, given each socket's rooms. */
  function RoomMembers(rooms: map<string, set<string>>, room: string): (r: set<string>)
    ensures forall s :: s in r <==> s in rooms && room in rooms[s]
  {
    set s | s in rooms && room in rooms[s]
  }

  /** The key a `sort({ createdAt })` orders the listed documents by: the
      timestamp `time` reads from each. */
  function SortKey<T>(docs: map<Id, T>, ids: set<Id>, time: T -> int): (key: map<Id, int>)
    requires ids <= docs.Keys
    ensures key.Keys == ids && forall id :: id in ids ==> key[id] == time(docs[id])
  {
    map id | id in ids :: time(docs[id])
  }

  /** An HTTP answer: a success status with its payload, or an error status
      with the `message` (or `error`) text of its JSON body. */
  datatype Response<T> = Ok(status: int, body: T) | Err(status: int, message: string)

  /** The framework's 500 for an exception no handler catches: its body
      carries no JSON `message`, so the message is empty, unlike every
      handled 500. */
  const Uncaught := ""

  predicate IsHexDigit(c: char) {
    '0' <= c <= '9' || 'a' <= c <= 'f' || 'A' <= c <= 'F'
  }

  /** The id strings the document mapper can cast to an ObjectId: 24 hex
      digits, or any 12-character string (read as 12 raw bytes).  Casting
      anything else throws. */
  predicate IsObjectId(s: string) {
    (|s| == 24 && forall i :: 0 <= i < |s| ==> IsHexDigit(s[i])) || |s| == 12
  }

  predicate Distinct<T(==)>(r: seq<T>) {
    forall i, j :: 0 <= i < j < |r| ==> r[i] != r[j]
  }

  function Before(a: int, b: int, descending: bool): bool {
    if descending then a >= b else a <= b
  }

  /** `r` lists ids so that their keys never go against the direction. */
  predicate InOrder(r: seq<Id>, key: map<Id, int>, descending: bool) {
    forall i, j :: 0 <= i < j < |r| && r[i] in key && r[j] in key ==> Before(key[r[i]], key[r[j]], descending)
  }

  /** `r` lists every id of `key` exactly once. */
  ghost predicate ListsExactly(r: seq<Id>, ids: set<Id>) {
    Distinct(r) && forall x :: x in r <==> x in ids
  }

  lemma {:induction false} ExtremeExists(s: set<Id>, key: map<Id, int>, descending: bool) returns (m: Id)
    requires s != {} && s <= key.Keys
    ensures m in s && forall y :: y in s ==> Before(key[m], key[y], descending)
    decreases s
  {
    var x :| x in s;
    if s == {x} {
      m := x;
    } else {
      var m' := ExtremeExists(s - {x}, key, descending);
      m := if Before(key[x], key[m'], descending) then x else m';
    }
  }

  /** A query's `.sort({ field: 1 | -1 })`: every selected id, once, in key
      order; ties come out in no particular order. */
  method SortedKeys(key: map<Id, int>, descending: bool) returns (r: seq<Id>)
    ensures ListsExactly(r, key.Keys) && InOrder(r, key, descending)
  {
    r := [];
    var remaining := key.Keys;
    while remaining != {}
      invariant remaining <= key.Keys
      invariant forall x :: x in key ==> (x in r <==> x !in remaining)
      invariant forall x :: x in r ==> x in key
      invariant Distinct(r) && InOrder(r, key, descending)
      invariant forall i, y :: 0 <= i < |r| && y in remaining ==> Before(key[r[i]], key[y], descending)
      decreases remaining
    {
      ghost var m := ExtremeExists(remaining, key, descending);
      var next :| next in remaining && forall y :: y in remaining ==> Before(key[next], key[y], descending);
      r := r + [next];
      remaining := remaining - {next};
    }
  }

  /** A query without `.sort`: every selected id once, in an order the
      store chooses. */
  method Enumerate(ids: set<Id>) returns (r: seq<Id>)
    ensures ListsExactly(r, ids)
  {
    r := [];
    var remaining := ids;
    while remaining != {}
      invariant remaining <= ids
      invariant forall x :: x in ids ==> (x in r <==> x !in remaining)
      invariant forall x :: x in r ==> x in ids
      invariant Distinct(r)
      decreases remaining
    {
      var next :| next in remaining;
      r := r + [next];
      remaining := remaining - {next};
    }
  }

  /** Characters `encodeURIComponent` leaves alone. */
  predicate IsUnreserved(c: char) {
    'A' <= c <= 'Z' || 'a' <= c <= 'z' || '0' <= c <= '9' ||
    c in "-_.!~*'()"
  }

  function HexUpper(n: int): (c: char)
    requires 0 <= n < 16
    ensures IsHexDigit(c) && !('a' <= c <= 'z')
  {
    if n < 10 then ('0' as int + n) as char else ('A' as int + n - 10) as char
  }

  /** The UTF-8 bytes of one code point. */
  function Utf8(cp: int): (bytes: seq<int>)
    requires 0 <= cp < 0x11_0000
    ensures 1 <= |bytes| <= 4 && forall i :: 0 <= i < |bytes| ==> 0 <= bytes[i] < 256
  {
    if cp < 0x80 then [cp]
    else if cp < 0x800 then [0xC0 + cp / 64, 0x80 + cp % 64]
    else if cp < 0x1_0000 then [0xE0 + cp / 4096, 0x80 + (cp / 64) % 64, 0x80 + cp % 64]
    else [0xF0 + cp / 262144, 0x80 + (cp / 4096) % 64, 0x80 + (cp / 64) % 64, 0x80 + cp % 64]
  }

  function PercentBytes(bytes: seq<int>): (r: string)
    requires forall i :: 0 <= i < |bytes| ==> 0 <= bytes[i] < 256
    ensures |r| == 3 * |bytes|
    ensures forall i :: 0 <= i < |r| ==> r[i] == '%' || (IsHexDigit(r[i]) && !('a' <= r[i] <= 'z'))
  {
    if bytes == [] then []
    else ['%', HexUpper(bytes[0] / 16), HexUpper(bytes[0] % 16)] + PercentBytes(bytes[1..])
  }

  /** `encodeURIComponent`: unreserved characters as they are, every other
      character as its UTF-8 bytes in `%XX` form. */
  function EncodeURIComponent(s: string): (r: string)
    ensures forall i :: 0 <= i < |r| ==> IsUnreserved(r[i]) || r[i] == '%' || IsHexDigit(r[i])
    ensures (forall i :: 0 <= i < |s| ==> IsUnreserved(s[i])) ==> r == s
  {
    if s == [] then []
    else
      (if IsUnreserved(s[0]) then [s[0]] else PercentBytes(Utf8(s[0] as int))) +
      EncodeURIComponent(s[1..])
  }

  /** JavaScript's white space and line terminators: what `\s` matches and
      what `trim` removes. */
  predicate IsJsSpace(c: char) {
    || c == ' ' || c == '\t' || c == '\n' || c == '\r'
    || c == 0x0B as char || c == 0x0C as char
    || c == 0xA0 as char || c == 0x1680 as char
    || (0x2000 as char <= c <= 0x200A as char)
    || c == 0x2028 as char || c == 0x2029 as char || c == 0x202F as char
    || c == 0x205F as char || c == 0x3000 as char || c == 0xFEFF as char
  }
}
