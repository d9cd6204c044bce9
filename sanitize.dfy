/** Recursive removal of prototype-pollution and operator-injection keys
    from a parsed JSON body (middlewares/sanitize.ts). */
module Sanitize {
  import opened Common

  /** A parsed JSON value.  An object is its list of entries in
      `Object.entries` order; a JavaScript object never holds one key twice.
      Numbers are carried through untouched, so their exact type does not
      matter here. */
  datatype Json =
    | JNull
    | JBool(b: bool)
    | JNum(n: int)
    | JStr(s: string)
    | JArr(items: seq<Json>)
    | JObj(members: seq<Member>)

  datatype Member = Member(key: string, value: Json)

  /** `BANNED_KEYS` (sanitize.ts:11). */
  const BannedKeys: seq<string> := ["__proto__", "constructor", "prototype"]

  /** `/^\$|\.|\$where|\$regex/i` (sanitize.ts:12): a leading `$`, a dot
      anywhere, or `$where` / `$regex` anywhere in any letter case. */
  predicate MatchesBannedPattern(key: string) {
    || (|key| > 0 && key[0] == '$')
    || '.' in key
    || Contains(Lower(key), "$where")
    || Contains(Lower(key), "$regex")
  }

  predicate IsValidKey(key: string) {
    key !in BannedKeys && !MatchesBannedPattern(key)
  }

  lemma BannedKeysRejected()
    ensures !IsValidKey("__proto__") && !IsValidKey("constructor") && !IsValidKey("prototype")
  {
  }

  /** Case does not help an operator key through: any key that contains
      `$where` or `$regex` in some mix of upper and lower case is rejected. */
  lemma {:induction false} OperatorKeysRejected(key: string, i: nat, op: string)
    requires op == "$where" || op == "$regex"
    requires i + |op| <= |key| && Lower(key[i..i + |op|]) == op
    ensures !IsValidKey(key)
  {
    assert Lower(key)[i..i + |op|] == Lower(key[i..i + |op|]);
    ContainsAt(Lower(key), op, i);
  }

  /** `isPlainObject(v) || Array.isArray(v)`: the values the sanitiser
      descends into. */
  predicate IsContainer(j: Json) {
    j.JArr? || j.JObj?
  }

  /** What `deepSanitize` returns for `j`. */
  function Sanitized(j: Json): (r: Json)
    ensures !IsContainer(j) ==> r == j
    ensures j.JArr? ==> r.JArr? && |r.items| == |j.items|
    ensures j.JObj? ==> r.JObj? && |r.members| <= |j.members|
    decreases j
  {
    match j
    case JArr(items) => JArr(SanitizedItems(items))
    case JObj(ms) => JObj(SanitizedMembers(ms))
    case _ => j
  }

  /** `input.map(deepSanitize)`: same length, element by element. */
  function SanitizedItems(items: seq<Json>): (r: seq<Json>)
    ensures |r| == |items|
    ensures forall i :: 0 <= i < |items| ==> r[i] == Sanitized(items[i])
    decreases items
  {
    if items == [] then []
    else SanitizedItems(items[..|items| - 1]) + [Sanitized(items[|items| - 1])]
  }

  /** The entries that survive, in their original order, each value
      sanitised. */
  function SanitizedMembers(ms: seq<Member>): (r: seq<Member>)
    ensures |r| <= |ms|
    decreases ms
  {
    if ms == [] then []
    else
      var last := ms[|ms| - 1];
      SanitizedMembers(ms[..|ms| - 1]) +
        (if IsValidKey(last.key) then [Member(last.key, Sanitized(last.value))] else [])
  }

  function Keys(ms: seq<Member>): (r: seq<string>)
    ensures |r| == |ms|
    ensures forall i :: 0 <= i < |ms| ==> r[i] == ms[i].key
  {
    seq(|ms|, i requires 0 <= i < |ms| => ms[i].key)
  }

  /** Reference definition of the surviving keys: filter the keys, front to
      back. */
  function ValidKeys(keys: seq<string>): (r: seq<string>)
    decreases |keys|
  {
    if keys == [] then []
    else (if IsValidKey(keys[0]) then [keys[0]] else []) + ValidKeys(keys[1..])
  }

  lemma {:induction false} ValidKeysSnoc(keys: seq<string>, k: string)
    ensures ValidKeys(keys + [k]) == ValidKeys(keys) + (if IsValidKey(k) then [k] else [])
    decreases |keys|
  {
    if keys != [] {
      assert (keys + [k])[1..] == keys[1..] + [k];
      ValidKeysSnoc(keys[1..], k);
    }
  }

  /** Surviving keys keep their relative order and are exactly the valid
      ones. */
  lemma {:induction false} SurvivingKeysInOrder(ms: seq<Member>)
    ensures Keys(SanitizedMembers(ms)) == ValidKeys(Keys(ms))
    decreases |ms|
  {
    if ms != [] {
      var init := ms[..|ms| - 1];
      var last := ms[|ms| - 1];
      SurvivingKeysInOrder(init);
      assert Keys(ms) == Keys(init) + [last.key];
      ValidKeysSnoc(Keys(init), last.key);
      var tail := if IsValidKey(last.key) then [Member(last.key, Sanitized(last.value))] else [];
      assert Keys(SanitizedMembers(init) + tail) == Keys(SanitizedMembers(init)) + Keys(tail);
    }
  }

  /** Reference definition of the surviving entries: filter the entries
      with valid keys, front to back. */
  function ValidMembers(ms: seq<Member>): (r: seq<Member>)
    decreases |ms|
  {
    if ms == [] then []
    else (if IsValidKey(ms[0].key) then [ms[0]] else []) + ValidMembers(ms[1..])
  }

  /** Every entry kept under its key, with its value sanitised. */
  function WithSanitizedValues(ms: seq<Member>): (r: seq<Member>)
    ensures |r| == |ms|
    ensures forall i :: 0 <= i < |ms| ==> r[i] == Member(ms[i].key, Sanitized(ms[i].value))
  {
    seq(|ms|, i requires 0 <= i < |ms| => Member(ms[i].key, Sanitized(ms[i].value)))
  }

  lemma {:induction false} ValidMembersSnoc(ms: seq<Member>, m: Member)
    ensures ValidMembers(ms + [m]) == ValidMembers(ms) + (if IsValidKey(m.key) then [m] else [])
    decreases |ms|
  {
    if ms != [] {
      assert (ms + [m])[1..] == ms[1..] + [m];
      ValidMembersSnoc(ms[1..], m);
    }
  }

  /** An object's sanitised entries are exactly its entries with valid
      keys, in order, each value sanitised in turn: nothing but rejected
      keys is dropped, and no surviving value is replaced. */
  lemma {:induction false} SanitizedMembersFilterThenMap(ms: seq<Member>)
    ensures SanitizedMembers(ms) == WithSanitizedValues(ValidMembers(ms))
    decreases |ms|
  {
    if ms != [] {
      var init := ms[..|ms| - 1];
      var last := ms[|ms| - 1];
      assert ms == init + [last];
      SanitizedMembersFilterThenMap(init);
      ValidMembersSnoc(init, last);
      var kept := if IsValidKey(last.key) then [last] else [];
      assert WithSanitizedValues(ValidMembers(init) + kept) == WithSanitizedValues(ValidMembers(init)) + WithSanitizedValues(kept);
    }
  }

  /** For a whole object: the result is the object of its valid entries,
      each value sanitised. */
  lemma SanitizedObject(ms: seq<Member>)
    ensures Sanitized(JObj(ms)) == JObj(WithSanitizedValues(ValidMembers(ms)))
  {
    SanitizedMembersFilterThenMap(ms);
  }

  /** No object at any depth holds a rejected key. */
  predicate Clean(j: Json)
    decreases j
  {
    match j
    case JArr(items) => forall i :: 0 <= i < |items| ==> Clean(items[i])
    case JObj(ms) => CleanMembers(ms)
    case _ => true
  }

  predicate CleanMembers(ms: seq<Member>)
    decreases ms
  {
    forall i :: 0 <= i < |ms| ==> IsValidKey(ms[i].key) && Clean(ms[i].value)
  }

  lemma {:induction false} SanitizedIsClean(j: Json)
    ensures Clean(Sanitized(j))
    decreases j
  {
    match j
    case JArr(items) =>
      forall i | 0 <= i < |items|
        ensures Clean(Sanitized(j).items[i])
      {
        SanitizedIsClean(items[i]);
      }
    case JObj(ms) =>
      SanitizedMembersAreClean(ms);
    case _ =>
  }

  lemma {:induction false} SanitizedMembersAreClean(ms: seq<Member>)
    ensures CleanMembers(SanitizedMembers(ms))
    decreases ms
  {
    if ms != [] {
      var last := ms[|ms| - 1];
      SanitizedMembersAreClean(ms[..|ms| - 1]);
      if IsValidKey(last.key) {
        SanitizedIsClean(last.value);
      }
    }
  }

  /** A value with no rejected key anywhere is returned as it is. */
  lemma {:induction false} CleanIsFixpoint(j: Json)
    requires Clean(j)
    ensures Sanitized(j) == j
    decreases j
  {
    match j
    case JArr(items) =>
      forall i | 0 <= i < |items|
        ensures Sanitized(items[i]) == items[i]
      {
        CleanIsFixpoint(items[i]);
      }
      assert SanitizedItems(items) == items;
    case JObj(ms) =>
      CleanMembersFixpoint(ms);
    case _ =>
  }

  lemma {:induction false} CleanMembersFixpoint(ms: seq<Member>)
    requires CleanMembers(ms)
    ensures SanitizedMembers(ms) == ms
    decreases ms
  {
    if ms != [] {
      var init := ms[..|ms| - 1];
      var last := ms[|ms| - 1];
      CleanMembersFixpoint(init);
      CleanIsFixpoint(last.value);
      assert ms == init + [last];
    }
  }

  /** Sanitising twice is sanitising once. */
  lemma Idempotent(j: Json)
    ensures Sanitized(Sanitized(j)) == Sanitized(j)
  {
    SanitizedIsClean(j);
    CleanIsFixpoint(Sanitized(j));
  }

  /** `deepSanitize` (sanitize.ts:22-46): arrays are mapped element by
      element; an object is rebuilt key by key in a loop, skipping rejected
      keys and descending into nested objects and arrays. */
  method DeepSanitize(input: Json) returns (r: Json)
    ensures r == Sanitized(input)
    decreases input
  {
    match input {
      case JArr(items) =>
        var out: seq<Json> := [];
        var i := 0;
        while i < |items|
          invariant 0 <= i <= |items|
          invariant out == SanitizedItems(items[..i])
        {
          var item := DeepSanitize(items[i]);
          assert items[..i + 1][..i] == items[..i];
          out := out + [item];
          i := i + 1;
        }
        assert items[..|items|] == items;
        r := JArr(out);
      case JObj(ms) =>
        var cleanObject: seq<Member> := [];
        var i := 0;
        while i < |ms|
          invariant 0 <= i <= |ms|
          invariant cleanObject == SanitizedMembers(ms[..i])
        {
          var key, value := ms[i].key, ms[i].value;
          assert ms[..i + 1][..i] == ms[..i];
          if IsValidKey(key) {
            if IsContainer(value) {
              var v := DeepSanitize(value);
              cleanObject := cleanObject + [Member(key, v)];
            } else {
              cleanObject := cleanObject + [Member(key, value)];
            }
          }
          i := i + 1;
        }
        assert ms[..|ms|] == ms;
        r := JObj(cleanObject);
      case _ =>
        r := input;
    }
  }
}
