/**
 * Request hardening (`server/middleware/securityMiddleware.js`): the NoSQL
 * key-injection predicate, string scrubbing, the recursive sanitisation of a
 * request's JSON trees, the payload check on critical routes and the extra
 * response headers.
 */
module SecurityMiddleware {
  import opened Wrappers
  import opened Strings
  import opened Json

  // ---------------------------------------------------------------- key injection

  /** The operator names whose `$`-prefixed form is refused anywhere in a key. */
  const OPERATORS: seq<string> := [
    "where", "regex", "ne", "gt", "lt", "in", "nin", "exists", "or", "and", "nor", "not",
    "expr", "jsonSchema", "mod", "all", "size", "type", "elemMatch"]

  /** Some `$<operator>` occurs in `k`, ignoring ASCII case. */
  predicate HasOperator(k: string) {
    exists i :: 0 <= i < |OPERATORS| && ContainsIgnoreCase(k, "$" + OPERATORS[i])
  }

  /**
   * `isNoSQLInjectionAttempt(key)`: not a string, never; otherwise a key that
   * starts with `$`, contains `.`, or contains a `$<operator>`.
   */
  function IsNoSqlInjectionAttempt(key: Json): (r: bool)
    ensures !key.JString? ==> !r
    ensures key.JString? ==> (r <==> (|key.s| > 0 && key.s[0] == '$') || '.' in key.s || HasOperator(key.s))
  {
    match key
    case JString(k) => (|k| > 0 && k[0] == '$') || '.' in k || HasOperator(k)
    case _ => false
  }

  lemma DollarIn(k: string, p: string)
    requires |p| > 0 && p[0] == '$'
    ensures ContainsIgnoreCase(k, p) ==> '$' in k
  {
    if ContainsIgnoreCase(k, p) {
      var i :| 0 <= i <= |k| - |p| && StartsWithIgnoreCase(k[i..], p);
      assert ToLowerAscii(k[i..][0]) == ToLowerAscii(p[0]);
    }
  }

  /** Keys refused by the predicate all hold a `$` or a `.`; a key with neither always passes. */
  lemma PlainKeysPass(k: string)
    requires '$' !in k && '.' !in k
    ensures !IsNoSqlInjectionAttempt(JString(k))
  {
    forall i | 0 <= i < |OPERATORS| ensures !ContainsIgnoreCase(k, "$" + OPERATORS[i]) {
      DollarIn(k, "$" + OPERATORS[i]);
    }
  }

  /** The operator test ignores ASCII case: `$NE` is caught as `$ne` is. */
  lemma OperatorCaseIgnored()
    ensures IsNoSqlInjectionAttempt(JString("a$NE"))
    ensures !IsNoSqlInjectionAttempt(JString("price"))
  {
    assert OPERATORS[2] == "ne";
    assert StartsWithIgnoreCase("a$NE"[1..], "$ne");
    PlainKeysPass("price");
  }

  // ---------------------------------------------------------------- strings

  /** `[\x00-\x08\x0B\x0C\x0E-\x1F\x7F]`: control characters other than tab, line feed and carriage return. */
  predicate IsStrippedControl(c: char) {
    ('\U{0000}' <= c <= '\U{0008}') || c == '\U{000B}' || c == '\U{000C}'
    || ('\U{000E}' <= c <= '\U{001F}') || c == '\U{007F}'
  }

  function RemoveControls(s: string): (r: string)
    ensures |r| <= |s|
    ensures forall c :: c in r <==> c in s && !IsStrippedControl(c)
    ensures (forall i :: 0 <= i < |s| ==> !IsStrippedControl(s[i])) ==> r == s
  {
    if s == [] then []
    else if IsStrippedControl(s[0]) then RemoveControls(s[1..])
    else [s[0]] + RemoveControls(s[1..])
  }

  /** `s.replace(/p/gi, '')` for a literal `p`: left-to-right, non-overlapping, one pass. */
  function RemoveAllIgnoreCase(s: string, p: string): (r: string)
    requires |p| > 0
    ensures |r| <= |s|
    ensures forall c :: c in r ==> c in s
    decreases |s|
  {
    if |s| < |p| then s
    else if StartsWithIgnoreCase(s, p) then RemoveAllIgnoreCase(s[|p|..], p)
    else [s[0]] + RemoveAllIgnoreCase(s[1..], p)
  }

  lemma {:induction false} RemoveAbsent(s: string, p: string)
    requires |p| > 0 && !ContainsIgnoreCase(s, p)
    ensures RemoveAllIgnoreCase(s, p) == s
    decreases |s|
  {
    if |s| >= |p| {
      assert s[0..] == s;
      assert !StartsWithIgnoreCase(s, p);
      assert !ContainsIgnoreCase(s[1..], p) by {
        forall i | 0 <= i <= |s[1..]| - |p| ensures !StartsWithIgnoreCase(s[1..][i..], p) {
          assert s[1..][i..] == s[i + 1..];
        }
      }
      RemoveAbsent(s[1..], p);
    }
  }

  /** The chain of `sanitizeString` on a string. */
  function SanitizeText(s: string): (r: string)
    ensures |r| <= |s|
    ensures r != [] ==> !IsJsWhitespace(r[0]) && !IsJsWhitespace(r[|r| - 1])
  {
    Trim(RemoveAllIgnoreCase(RemoveAllIgnoreCase(RemoveAllIgnoreCase(RemoveControls(s),
      "javascript:"), "vbscript:"), "data:"))
  }

  /** `sanitizeString(value)`: strings are scrubbed, anything else is returned as is. */
  function SanitizeString(v: Json): (r: Json)
    ensures !v.JString? ==> r == v
    ensures v.JString? ==> r == JString(SanitizeText(v.s))
  {
    if v.JString? then JString(SanitizeText(v.s)) else v
  }

  /** Later steps only delete, so no stripped control character survives and nothing new appears. */
  lemma SanitizedTextChars(s: string)
    ensures forall c :: c in SanitizeText(s) ==> c in s && !IsStrippedControl(c)
  {
    var a := RemoveControls(s);
    var b := RemoveAllIgnoreCase(a, "javascript:");
    var c := RemoveAllIgnoreCase(b, "vbscript:");
    var d := RemoveAllIgnoreCase(c, "data:");
    var t := Trim(d);
    forall x | x in t ensures x in s && !IsStrippedControl(x) {
      var k :| 0 <= k < |t| && t[k] == x;
      assert t[k] == d[LeadingWs(d) + k];
    }
  }

  /** A string with nothing to strip is left unchanged. */
  lemma CleanTextUnchanged(s: string)
    requires forall i :: 0 <= i < |s| ==> !IsStrippedControl(s[i])
    requires !ContainsIgnoreCase(s, "javascript:") && !ContainsIgnoreCase(s, "vbscript:") && !ContainsIgnoreCase(s, "data:")
    requires s == [] || (!IsJsWhitespace(s[0]) && !IsJsWhitespace(s[|s| - 1]))
    ensures SanitizeText(s) == s
  {
    RemoveAbsent(s, "javascript:");
    RemoveAbsent(s, "vbscript:");
    RemoveAbsent(s, "data:");
  }

  /** A pattern holding a character that `s` lacks (in either case) does not occur in `s`. */
  lemma MissingCharNoMatch(s: string, p: string, k: nat)
    requires k < |p| && forall i :: 0 <= i < |s| ==> ToLowerAscii(s[i]) != ToLowerAscii(p[k])
    ensures !ContainsIgnoreCase(s, p)
  {
    forall i | 0 <= i <= |s| - |p| ensures !StartsWithIgnoreCase(s[i..], p) {
      assert s[i..][k] == s[i + k];
      MismatchAt(s[i..], p, k);
    }
  }

  /**
   * A pattern whose first code point differs from its second and third, written
   * into itself after its first two, comes back whole from one removal pass:
   * `jajavascript:vascript:` becomes `javascript:`.
   */
  lemma NestedPatternSurvivesOnePass(p: string)
    requires |p| >= 3 && ToLowerAscii(p[1]) != ToLowerAscii(p[0]) && ToLowerAscii(p[2]) != ToLowerAscii(p[0])
    ensures RemoveAllIgnoreCase(p[..2] + p + p[2..], p) == p
  {
    var s := p[..2] + p + p[2..];
    var inner := p + p[2..];
    assert s[..2] == p[..2] && s[2..] == inner && s[1] == p[1] && s[2] == p[0];
    RemoveKeepsTwo(s, p);
    assert inner[..|p|] == p && inner[|p|..] == p[2..];
    RemoveDrops(inner, p);
    RemoveShort(p[2..], p);
    assert p == p[..2] + p[2..];
  }

  /** Two leading code points that start no match are kept. */
  lemma RemoveKeepsTwo(s: string, p: string)
    requires 3 <= |p| && |p| + 2 <= |s|
    requires ToLowerAscii(s[1]) != ToLowerAscii(p[0]) && ToLowerAscii(s[2]) != ToLowerAscii(p[2])
    ensures RemoveAllIgnoreCase(s, p) == s[..2] + RemoveAllIgnoreCase(s[2..], p)
  {
    RemoveKeeps(s, p, 2);
    RemoveKeeps(s[1..], p, 0);
    assert s[1..][1..] == s[2..];
    assert s[..2] == [s[0], s[1]];
  }

  /** A mismatch ignoring case at offset `k` keeps the first code point. */
  lemma RemoveKeeps(s: string, p: string, k: nat)
    requires k < |p| <= |s| && ToLowerAscii(s[k]) != ToLowerAscii(p[k])
    ensures RemoveAllIgnoreCase(s, p) == [s[0]] + RemoveAllIgnoreCase(s[1..], p)
  {
    MismatchAt(s, p, k);
  }

  /** An exact occurrence at the start is dropped. */
  lemma RemoveDrops(s: string, p: string)
    requires 0 < |p| <= |s| && s[..|p|] == p
    ensures RemoveAllIgnoreCase(s, p) == RemoveAllIgnoreCase(s[|p|..], p)
  {
    PrefixMatches(s, p);
  }

  /** A string shorter than the pattern is kept. */
  lemma RemoveShort(s: string, p: string)
    requires |s| < |p|
    ensures RemoveAllIgnoreCase(s, p) == s
  {
  }

  lemma {:induction false} PrintableKept(s: string)
    requires forall i :: 0 <= i < |s| ==> ' ' <= s[i] <= '~'
    ensures RemoveControls(s) == s
  {
    if s != [] {
      PrintableKept(s[1..]);
    }
  }

  lemma JavascriptSchemeKept()
    ensures RemoveAllIgnoreCase("javascript:", "vbscript:") == "javascript:"
    ensures RemoveAllIgnoreCase("javascript:", "data:") == "javascript:"
  {
    JavascriptLacksB();
    JavascriptLacksD();
  }

  lemma JavascriptLacksB()
    ensures RemoveAllIgnoreCase("javascript:", "vbscript:") == "javascript:"
  {
    SchemeLacksLetter("javascript:", "vbscript:", 1);
  }

  lemma JavascriptLacksD()
    ensures RemoveAllIgnoreCase("javascript:", "data:") == "javascript:"
  {
    SchemeLacksLetter("javascript:", "data:", 0);
  }

  /** Text lacking, in either case, a letter of the pattern passes the removal unchanged. */
  lemma SchemeLacksLetter(s: string, p: string, k: nat)
    requires k < |p| && IsAsciiLower(p[k]) && p[k] !in s && (p[k] as int - 32) as char !in s
    ensures RemoveAllIgnoreCase(s, p) == s
  {
    forall i | 0 <= i < |s| ensures ToLowerAscii(s[i]) != ToLowerAscii(p[k]) {
      assert s[i] in s;
    }
    MissingCharNoMatch(s, p, k);
    RemoveAbsent(s, p);
  }

  /**
   * One pass is not enough: removing an inner `javascript:` closes up an outer
   * one, so `jajavascript:vascript:` is scrubbed to `javascript:`.
   */
  lemma NestedProtocolSurvives()
    ensures var p := "javascript:"; SanitizeText(p[..2] + p + p[2..]) == p
  {
    var p := "javascript:";
    var s := p[..2] + p + p[2..];
    forall i | 0 <= i < |s| ensures ' ' <= s[i] <= '~' {
      assert s[i] in p;
    }
    PrintableKept(s);
    assert p[0] == 'j' && p[1] == 'a' && p[2] == 'v';
    NestedPatternSurvivesOnePass(p);
    JavascriptSchemeKept();
    JavascriptSchemeTrimmed();
  }

  lemma JavascriptSchemeTrimmed()
    ensures Trim("javascript:") == "javascript:"
  {
    var t := "javascript:";
    assert !IsJsWhitespace(t[0]) && !IsJsWhitespace(t[|t| - 1]);
  }

  lemma NoOperatorInSpaceDollarX()
    ensures !HasOperator(" $x")
  {
    assert forall i :: 0 <= i < |OPERATORS| ==> |OPERATORS[i]| >= 2 && IsAsciiLower(OPERATORS[i][0]) && OPERATORS[i][0] != 'x';
    forall i | 0 <= i < |OPERATORS| ensures !ContainsIgnoreCase(" $x", "$" + OPERATORS[i]) {
      MissingCharNoMatch(" $x", "$" + OPERATORS[i], 1);
    }
  }

  lemma SpaceDollarXSanitized()
    ensures SanitizeText(" $x") == "$x"
  {
    var s := " $x";
    SpaceDollarXHasNothingToRemove();
    SpaceDollarXTrimmed();
    assert SanitizeText(s) == Trim(RemoveAllIgnoreCase(RemoveAllIgnoreCase(RemoveAllIgnoreCase(RemoveControls(s),
      "javascript:"), "vbscript:"), "data:"));
  }

  lemma SpaceDollarXHasNothingToRemove()
    ensures RemoveControls(" $x") == " $x"
    ensures RemoveAllIgnoreCase(" $x", "javascript:") == " $x"
    ensures RemoveAllIgnoreCase(" $x", "vbscript:") == " $x"
    ensures RemoveAllIgnoreCase(" $x", "data:") == " $x"
  {
    PrintableKept(" $x");
    RemoveShort(" $x", "javascript:");
    RemoveShort(" $x", "vbscript:");
    RemoveShort(" $x", "data:");
  }

  lemma SpaceDollarXTrimmed()
    ensures Trim(" $x") == "$x"
  {
    var s := " $x";
    assert LeadingWs(s[1..]) == 0;
    assert LeadingWs(s) == 1;
    assert s[1..] == "$x";
  }

  /** A key that passes the injection check may still start with `$` once trimmed. */
  lemma TrimmedKeyMayStartWithDollar()
    ensures !IsNoSqlInjectionAttempt(JString(" $x"))
    ensures SanitizeText(" $x") == "$x"
  {
    NoOperatorInSpaceDollarX();
    SpaceDollarXSanitized();
  }

  // ---------------------------------------------------------------- sanitizeObject

  /** Index of the member named `k`, or `|ms|`. */
  function MemberIndex(ms: seq<Member>, k: string): (i: nat)
    ensures i <= |ms|
    ensures i < |ms| ==> ms[i].key == k
    ensures forall j :: 0 <= j < i ==> ms[j].key != k
  {
    if ms == [] then 0 else if ms[0].key == k then 0 else 1 + MemberIndex(ms[1..], k)
  }

  predicate DistinctMemberKeys(ms: seq<Member>) {
    forall i, j :: 0 <= i < j < |ms| ==> ms[i].key != ms[j].key
  }

  /** `obj[k] = v` for a data property: replaces the value of an existing member in place, or appends. */
  function AssignMember(ms: seq<Member>, k: string, v: Json): (r: seq<Member>)
    ensures MemberKeys(r) == if k in MemberKeys(ms) then MemberKeys(ms) else MemberKeys(ms) + [k]
    ensures DistinctMemberKeys(ms) ==> DistinctMemberKeys(r)
    ensures forall k' :: k' in MemberKeys(r) <==> k' in MemberKeys(ms) || k' == k
    ensures |r| <= |ms| + 1
    ensures exists i :: 0 <= i < |r| && r[i] == Member(k, v)
    ensures forall j :: 0 <= j < |r| && r[j].key != k ==> j < |ms| && r[j] == ms[j]
    ensures DistinctMemberKeys(ms) ==> forall j :: 0 <= j < |r| && r[j].key == k ==> r[j].value == v
  {
    var i := MemberIndex(ms, k);
    if i < |ms| then
      var r := ms[i := Member(k, v)];
      assert MemberKeys(r) == MemberKeys(ms);
      r
    else
      var r := ms + [Member(k, v)];
      assert MemberKeys(r) == MemberKeys(ms) + [k];
      assert r[|ms|] == Member(k, v);
      r
  }

  /** The key that `Object.prototype` defines as an accessor of the prototype. */
  const PROTO_KEY: string := "__proto__"

  /**
   * The prototype chain of an object built from `{}`. It starts at
   * `Object.prototype`; the `__proto__` accessor replaces it by `null`, or by an
   * object or array followed by that value's own chain. An array's chain,
   * `Array.prototype` and then `Object.prototype`, owns no `__proto__` member
   * and is written `ObjectPrototype` here.
   */
  datatype Prototype = ObjectPrototype | NullPrototype | Installed(value: Json, parent: Prototype)

  /** No object on the chain owns a `__proto__` member, so an assignment to `__proto__` reaches the accessor. */
  predicate ReachesProtoSetter(p: Prototype) {
    match p
    case ObjectPrototype => true
    case NullPrototype => false
    case Installed(v, parent) => (v.JObject? ==> PROTO_KEY !in MemberKeys(v.members)) && ReachesProtoSetter(parent)
  }

  /** An object under construction: its own members and its prototype chain. */
  datatype Built = Built(members: seq<Member>, proto: Prototype)

  /** `obj[k] = v` calls the accessor: `k` is `__proto__`, no own member has that key, and the chain reaches it. */
  predicate CallsProtoSetter(b: Built, k: string) {
    k == PROTO_KEY && k !in MemberKeys(b.members) && ReachesProtoSetter(b.proto)
  }

  /**
   * `obj[k] = v` on an object built from `{}`, where `vp` is the prototype chain
   * of the object `v`. The accessor installs an object, an array or `null` as the
   * prototype and ignores any other value, adding no member either way; any
   * other assignment stores a member and leaves the chain alone.
   */
  function Assign(b: Built, k: string, v: Json, vp: Prototype): (r: Built)
    ensures DistinctMemberKeys(b.members) ==> DistinctMemberKeys(r.members)
    ensures |r.members| <= |b.members| + 1
    ensures forall k' :: k' in MemberKeys(r.members) <==> k' in MemberKeys(b.members) || (k' == k && !CallsProtoSetter(b, k))
    ensures forall j :: 0 <= j < |r.members| && r.members[j].key != k ==> j < |b.members| && r.members[j] == b.members[j]
    ensures DistinctMemberKeys(b.members) ==> forall j :: 0 <= j < |r.members| && r.members[j].key == k ==> r.members[j].value == v
    ensures !CallsProtoSetter(b, k) ==> r.proto == b.proto
    ensures CallsProtoSetter(b, k) && !IsObjectType(v) ==> r == b
  {
    if !CallsProtoSetter(b, k) then Built(AssignMember(b.members, k, v), b.proto)
    else if v.JNull? then Built(b.members, NullPrototype)
    else if v.JObject? || v.JArray? then Built(b.members, Installed(v, vp))
    else b
  }

  /**
   * `obj[k]` for a key none of the built-in prototypes defines: the own member,
   * else the member of the first object on the chain that has one (the elements
   * of an installed array are not looked up).
   */
  function PropertyOf(b: Built, k: string): (r: Option<Json>)
    ensures k in MemberKeys(b.members) ==> r.Some?
  {
    var i := MemberIndex(b.members, k);
    if i < |b.members| then Some(b.members[i].value) else ChainProperty(b.proto, k)
  }

  function ChainProperty(p: Prototype, k: string): Option<Json> {
    match p
    case Installed(v, parent) =>
      if v.JObject? && MemberIndex(v.members, k) < |v.members| then Some(v.members[MemberIndex(v.members, k)].value)
      else ChainProperty(parent, k)
    case _ => None
  }

  predicate IsInjectionKey(k: string) {
    IsNoSqlInjectionAttempt(JString(k))
  }

  /** `IsInjectionKey` and `SanitizeText` as values, so that the object loop below can be reasoned about once. */
  const REFUSE: string -> bool := IsInjectionKey
  const RENAME: string -> string := SanitizeText

  /**
   * The object loop of `sanitizeObject` over `keys[..n]` with the already
   * sanitised values `vals` and their prototype chains `protos`: refused keys
   * are skipped, the others are assigned under their sanitised name to an
   * object that starts as `{}`.
   */
  function BuildObject(keys: seq<string>, vals: seq<Json>, protos: seq<Prototype>, n: nat, refuse: string -> bool,
                       rename: string -> string): (r: Built)
    requires |keys| == |vals| == |protos| && n <= |keys|
    ensures DistinctMemberKeys(r.members)
    ensures |r.members| <= n
  {
    if n == 0 then Built([], ObjectPrototype)
    else KeepMember(BuildObject(keys, vals, protos, n - 1, refuse, rename), keys[n - 1], vals[n - 1], protos[n - 1], refuse, rename)
  }

  /** One key of the loop: a refused key is skipped, any other is assigned under its sanitised name. */
  function KeepMember(acc: Built, k: string, v: Json, vp: Prototype, refuse: string -> bool, rename: string -> string): (r: Built)
    ensures DistinctMemberKeys(acc.members) ==> DistinctMemberKeys(r.members)
    ensures |r.members| <= |acc.members| + 1
    ensures refuse(k) ==> r == acc
  {
    if refuse(k) then acc else Assign(acc, rename(k), v, vp)
  }

  /** Some key among the first `n` passes the check and sanitises to `k`. */
  predicate KeptKeyBefore(keys: seq<string>, n: nat, k: string, refuse: string -> bool, rename: string -> string)
    requires n <= |keys|
  {
    exists i :: 0 <= i < n && !refuse(keys[i]) && rename(keys[i]) == k
  }

  lemma KeptKeyStep(keys: seq<string>, n: nat, k: string, refuse: string -> bool, rename: string -> string)
    requires 0 < n <= |keys|
    ensures KeptKeyBefore(keys, n, k, refuse, rename) <==>
      KeptKeyBefore(keys, n - 1, k, refuse, rename) || (!refuse(keys[n - 1]) && rename(keys[n - 1]) == k)
  {
    if KeptKeyBefore(keys, n, k, refuse, rename) && !KeptKeyBefore(keys, n - 1, k, refuse, rename) {
      var i :| 0 <= i < n && !refuse(keys[i]) && rename(keys[i]) == k;
      assert i == n - 1;
    }
  }

  /**
   * Some key among the first `n` passes the check, sanitises to `__proto__` and
   * is assigned while the chain built so far no longer reaches the accessor.
   */
  predicate OwnProtoBefore(keys: seq<string>, vals: seq<Json>, protos: seq<Prototype>, n: nat, refuse: string -> bool,
                           rename: string -> string)
    requires |keys| == |vals| == |protos| && n <= |keys|
  {
    exists i :: 0 <= i < n && !refuse(keys[i]) && rename(keys[i]) == PROTO_KEY
      && !ReachesProtoSetter(BuildObject(keys, vals, protos, i, refuse, rename).proto)
  }

  lemma OwnProtoStep(keys: seq<string>, vals: seq<Json>, protos: seq<Prototype>, n: nat, refuse: string -> bool,
                     rename: string -> string)
    requires |keys| == |vals| == |protos| && 0 < n <= |keys|
    ensures OwnProtoBefore(keys, vals, protos, n, refuse, rename) <==>
      || OwnProtoBefore(keys, vals, protos, n - 1, refuse, rename)
      || (!refuse(keys[n - 1]) && rename(keys[n - 1]) == PROTO_KEY
          && !ReachesProtoSetter(BuildObject(keys, vals, protos, n - 1, refuse, rename).proto))
  {
    if OwnProtoBefore(keys, vals, protos, n, refuse, rename) && !OwnProtoBefore(keys, vals, protos, n - 1, refuse, rename) {
      var i :| 0 <= i < n && !refuse(keys[i]) && rename(keys[i]) == PROTO_KEY
        && !ReachesProtoSetter(BuildObject(keys, vals, protos, i, refuse, rename).proto);
      assert i == n - 1;
    }
  }

  /**
   * A name other than `__proto__` is a key of the rebuilt object iff it is the
   * sanitised form of a key that passes the check; `__proto__` is one iff such a
   * key was assigned once the chain no longer reached the accessor.
   */
  lemma {:induction false} BuildObjectKeys(keys: seq<string>, vals: seq<Json>, protos: seq<Prototype>, n: nat,
                                           refuse: string -> bool, rename: string -> string)
    requires |keys| == |vals| == |protos| && n <= |keys|
    ensures var r := BuildObject(keys, vals, protos, n, refuse, rename);
      forall k :: k != PROTO_KEY ==> (k in MemberKeys(r.members) <==> KeptKeyBefore(keys, n, k, refuse, rename))
    ensures PROTO_KEY in MemberKeys(BuildObject(keys, vals, protos, n, refuse, rename).members) <==>
      OwnProtoBefore(keys, vals, protos, n, refuse, rename)
  {
    if n > 0 {
      BuildObjectKeys(keys, vals, protos, n - 1, refuse, rename);
      var acc := BuildObject(keys, vals, protos, n - 1, refuse, rename);
      var r := BuildObject(keys, vals, protos, n, refuse, rename);
      assert r == KeepMember(acc, keys[n - 1], vals[n - 1], protos[n - 1], refuse, rename);
      forall k | k != PROTO_KEY ensures k in MemberKeys(r.members) <==> KeptKeyBefore(keys, n, k, refuse, rename) {
        KeptKeyStep(keys, n, k, refuse, rename);
      }
      OwnProtoStep(keys, vals, protos, n, refuse, rename);
    }
  }

  /** The chain changes only through a kept key renamed `__proto__`: without one it stays `Object.prototype`. */
  lemma {:induction false} BuildObjectPrototype(keys: seq<string>, vals: seq<Json>, protos: seq<Prototype>, n: nat,
                                                refuse: string -> bool, rename: string -> string)
    requires |keys| == |vals| == |protos| && n <= |keys|
    ensures !KeptKeyBefore(keys, n, PROTO_KEY, refuse, rename) ==>
      BuildObject(keys, vals, protos, n, refuse, rename).proto == ObjectPrototype
  {
    if n > 0 {
      KeptKeyStep(keys, n, PROTO_KEY, refuse, rename);
      BuildObjectPrototype(keys, vals, protos, n - 1, refuse, rename);
    }
  }

  /** The last of the first `n` keys that passes the check and sanitises to `k`, or -1 when there is none. */
  function LastKept(keys: seq<string>, n: nat, k: string, refuse: string -> bool, rename: string -> string): (i: int)
    requires n <= |keys|
    ensures -1 <= i < n
    ensures i >= 0 ==> !refuse(keys[i]) && rename(keys[i]) == k
    ensures forall j :: i < j < n ==> refuse(keys[j]) || rename(keys[j]) != k
  {
    if n == 0 then -1
    else if !refuse(keys[n - 1]) && rename(keys[n - 1]) == k then n - 1
    else LastKept(keys, n - 1, k, refuse, rename)
  }

  /**
   * Assignment overwrites, so the value stored under each key of the rebuilt
   * object is the value of the last original key that was kept under that name.
   */
  lemma {:induction false} BuildObjectValues(keys: seq<string>, vals: seq<Json>, protos: seq<Prototype>, n: nat,
                                             refuse: string -> bool, rename: string -> string)
    requires |keys| == |vals| == |protos| && n <= |keys|
    ensures ValuesFromLastKept(BuildObject(keys, vals, protos, n, refuse, rename).members, keys, vals, n, refuse, rename)
  {
    if n > 0 {
      BuildObjectValues(keys, vals, protos, n - 1, refuse, rename);
      KeepMemberValues(BuildObject(keys, vals, protos, n - 1, refuse, rename), keys, vals, protos, n, refuse, rename);
    }
  }

  /** Every member holds the value of the last of the first `n` keys kept under its name. */
  predicate ValuesFromLastKept(ms: seq<Member>, keys: seq<string>, vals: seq<Json>, n: nat,
                               refuse: string -> bool, rename: string -> string)
    requires |keys| == |vals| && n <= |keys|
  {
    forall j :: 0 <= j < |ms| ==>
      0 <= LastKept(keys, n, ms[j].key, refuse, rename) && ms[j].value == vals[LastKept(keys, n, ms[j].key, refuse, rename)]
  }

  /** One step of the loop keeps `ValuesFromLastKept`, with one more key considered. */
  lemma KeepMemberValues(acc: Built, keys: seq<string>, vals: seq<Json>, protos: seq<Prototype>, n: nat,
                         refuse: string -> bool, rename: string -> string)
    requires |keys| == |vals| == |protos| && 0 < n <= |keys|
    requires DistinctMemberKeys(acc.members) && ValuesFromLastKept(acc.members, keys, vals, n - 1, refuse, rename)
    ensures ValuesFromLastKept(KeepMember(acc, keys[n - 1], vals[n - 1], protos[n - 1], refuse, rename).members,
                               keys, vals, n, refuse, rename)
  {
    var r := KeepMember(acc, keys[n - 1], vals[n - 1], protos[n - 1], refuse, rename).members;
    if refuse(keys[n - 1]) {
      forall j | 0 <= j < |r|
        ensures 0 <= LastKept(keys, n, r[j].key, refuse, rename) && r[j].value == vals[LastKept(keys, n, r[j].key, refuse, rename)]
      {
        assert LastKept(keys, n, r[j].key, refuse, rename) == LastKept(keys, n - 1, acc.members[j].key, refuse, rename);
      }
    } else {
      var k := rename(keys[n - 1]);
      assert r == Assign(acc, k, vals[n - 1], protos[n - 1]).members;
      forall j | 0 <= j < |r|
        ensures 0 <= LastKept(keys, n, r[j].key, refuse, rename) && r[j].value == vals[LastKept(keys, n, r[j].key, refuse, rename)]
      {
        if r[j].key != k {
          assert r[j] == acc.members[j];
          assert LastKept(keys, n, r[j].key, refuse, rename) == LastKept(keys, n - 1, r[j].key, refuse, rename);
        } else {
          assert LastKept(keys, n, k, refuse, rename) == n - 1;
        }
      }
    }
  }

  /**
   * `sanitizeObject(obj)`: `null`, `undefined`, numbers and booleans unchanged,
   * strings scrubbed, arrays element by element, objects rebuilt key by key
   * (the value keeps the rebuilt object's own members; its prototype chain is
   * `SanitizedPrototype`).
   */
  function SanitizeObject(v: Json): (r: Json)
    ensures (v.JNull? || v.JUndefined? || v.JNumber? || v.JBool?) ==> r == v
    ensures v.JString? ==> r == SanitizeString(v)
    ensures v.JArray? ==> r.JArray? && |r.items| == |v.items|
    ensures v.JObject? ==> r.JObject? && |r.members| <= |v.members| && DistinctMemberKeys(r.members)
    decreases v, 2
  {
    match v
    case JString(_) => SanitizeString(v)
    case JArray(items) => JArray(seq(|items|, i requires 0 <= i < |items| => SanitizeObject(items[i])))
    case JObject(ms) => JObject(RebuiltObject(ms).members)
    case _ => v
  }

  /** The object `sanitizeObject` builds for an object with members `ms`: own members and prototype chain. */
  function RebuiltObject(ms: seq<Member>): (b: Built)
    ensures DistinctMemberKeys(b.members) && |b.members| <= |ms|
    ensures !KeptKeyBefore(MemberKeys(ms), |ms|, PROTO_KEY, REFUSE, RENAME) ==> b.proto == ObjectPrototype
    decreases JObject(ms), 1
  {
    BuildObjectPrototype(MemberKeys(ms), SanitizedValues(ms), SanitizedPrototypes(ms), |ms|, REFUSE, RENAME);
    BuildObject(MemberKeys(ms), SanitizedValues(ms), SanitizedPrototypes(ms), |ms|, REFUSE, RENAME)
  }

  /** The members' values, each sanitised, in key order. */
  function SanitizedValues(ms: seq<Member>): (vals: seq<Json>)
    ensures |vals| == |ms|
    ensures forall i :: 0 <= i < |ms| ==> vals[i] == SanitizeObject(ms[i].value)
    decreases JObject(ms), 0
  {
    seq(|ms|, i requires 0 <= i < |ms| => SanitizeObject(ms[i].value))
  }

  /** The prototype chains of the members' sanitised values, in key order. */
  function SanitizedPrototypes(ms: seq<Member>): (ps: seq<Prototype>)
    ensures |ps| == |ms|
    ensures forall i :: 0 <= i < |ms| ==> ps[i] == SanitizedPrototype(ms[i].value)
    decreases JObject(ms), 0
  {
    seq(|ms|, i requires 0 <= i < |ms| => SanitizedPrototype(ms[i].value))
  }

  /** The prototype chain of `SanitizeObject(v)` when that is an object; an array's is `ObjectPrototype`. */
  function SanitizedPrototype(v: Json): Prototype
    decreases v, 2
  {
    match v
    case JObject(ms) => RebuiltObject(ms).proto
    case _ => ObjectPrototype
  }

  /** Arrays keep their order: the element at each index is the sanitised original. */
  lemma SanitizeArrayElementwise(items: seq<Json>)
    ensures forall i :: 0 <= i < |items| ==> SanitizeObject(JArray(items)).items[i] == SanitizeObject(items[i])
  {
  }

  /**
   * The keys of a sanitised object other than `__proto__` are exactly the
   * sanitised names of the original keys that pass the injection check; it has
   * its own `__proto__` only when such a key was assigned after the chain
   * stopped reaching the accessor.
   */
  lemma SanitizeObjectKeys(ms: seq<Member>)
    ensures var r := SanitizeObject(JObject(ms)).members;
      forall k :: k != PROTO_KEY ==> (k in MemberKeys(r) <==> KeptKeyBefore(MemberKeys(ms), |ms|, k, REFUSE, RENAME))
    ensures PROTO_KEY in MemberKeys(SanitizeObject(JObject(ms)).members) <==>
      OwnProtoBefore(MemberKeys(ms), SanitizedValues(ms), SanitizedPrototypes(ms), |ms|, REFUSE, RENAME)
    ensures PROTO_KEY in MemberKeys(SanitizeObject(JObject(ms)).members) ==> KeptKeyBefore(MemberKeys(ms), |ms|, PROTO_KEY, REFUSE, RENAME)
  {
    var keys, vals, protos := MemberKeys(ms), SanitizedValues(ms), SanitizedPrototypes(ms);
    BuildObjectKeys(keys, vals, protos, |ms|, REFUSE, RENAME);
    assert SanitizeObject(JObject(ms)).members == BuildObject(keys, vals, protos, |ms|, REFUSE, RENAME).members;
  }

  /**
   * Each member of a sanitised object holds the sanitised value of the last
   * original member that passes the injection check and whose key sanitises to
   * that member's key.
   */
  lemma SanitizeObjectValues(ms: seq<Member>)
    ensures var r := SanitizeObject(JObject(ms)).members;
      forall j :: 0 <= j < |r| ==>
        var i := LastKept(MemberKeys(ms), |ms|, r[j].key, REFUSE, RENAME);
        0 <= i < |ms| && r[j].value == SanitizeObject(ms[i].value)
  {
    var vals, protos := SanitizedValues(ms), SanitizedPrototypes(ms);
    BuildObjectValues(MemberKeys(ms), vals, protos, |ms|, REFUSE, RENAME);
    assert SanitizeObject(JObject(ms)).members == BuildObject(MemberKeys(ms), vals, protos, |ms|, REFUSE, RENAME).members;
  }

  /** Printable ASCII without `$`, `.` or `:` passes the check and is only trimmed. */
  lemma PlainTextScrubbed(s: string)
    requires forall i :: 0 <= i < |s| ==> ' ' <= s[i] <= '~' && s[i] != '$' && s[i] != '.' && s[i] != ':'
    ensures !IsInjectionKey(s) && SanitizeText(s) == Trim(s)
  {
    PlainKeysPass(s);
    PrintableKept(s);
    MissingCharNoMatch(s, "javascript:", 10);
    MissingCharNoMatch(s, "vbscript:", 8);
    MissingCharNoMatch(s, "data:", 4);
    RemoveAbsent(s, "javascript:");
    RemoveAbsent(s, "vbscript:");
    RemoveAbsent(s, "data:");
  }

  /** A key of printable ASCII without spaces, `$`, `.` or `:` passes the check and keeps its name. */
  lemma PlainKeyKept(k: string)
    requires forall i :: 0 <= i < |k| ==> ' ' < k[i] <= '~' && k[i] != '$' && k[i] != '.' && k[i] != ':'
    ensures !IsInjectionKey(k) && SanitizeText(k) == k
  {
    PlainTextScrubbed(k);
    if k != [] {
      PrintableNotWhitespace(k[0]);
      PrintableNotWhitespace(k[|k| - 1]);
      TrimKeepsEdges(k);
    }
  }

  lemma PrintableNotWhitespace(c: char)
    requires ' ' < c <= '~'
    ensures !IsJsWhitespace(c)
  {
  }

  lemma TrimKeepsEdges(k: string)
    requires k != [] && !IsJsWhitespace(k[0]) && !IsJsWhitespace(k[|k| - 1])
    ensures Trim(k) == k
  {
  }

  lemma TrimLeadingSpace(k: string)
    requires k != [] && !IsJsWhitespace(k[0]) && !IsJsWhitespace(k[|k| - 1])
    ensures Trim(" " + k) == k
  {
    var s := " " + k;
    assert s[1..] == k;
    assert LeadingWs(s) == 1;
    assert TrailingWs(k) == 0;
  }

  /** Written after a space, such a key passes too, and trimming gives it back. */
  lemma SpacedPlainKeyKept(k: string)
    requires k != [] && forall i :: 0 <= i < |k| ==> ' ' < k[i] <= '~' && k[i] != '$' && k[i] != '.' && k[i] != ':'
    ensures !IsInjectionKey(" " + k) && SanitizeText(" " + k) == k
  {
    var s := " " + k;
    assert forall i :: 1 <= i < |s| ==> s[i] == k[i - 1];
    PlainTextScrubbed(s);
    PrintableNotWhitespace(k[0]);
    PrintableNotWhitespace(k[|k| - 1]);
    TrimLeadingSpace(k);
  }

  lemma RebuiltUnfolds(ms: seq<Member>)
    ensures RebuiltObject(ms) == BuildObject(MemberKeys(ms), SanitizedValues(ms), SanitizedPrototypes(ms), |ms|, REFUSE, RENAME)
  {
  }

  lemma ObjectUnfolds(ms: seq<Member>)
    ensures SanitizeObject(JObject(ms)) == JObject(RebuiltObject(ms).members)
    ensures SanitizedPrototype(JObject(ms)) == RebuiltObject(ms).proto
  {
  }

  lemma OneMemberSeqs(k: string, v: Json)
    ensures MemberKeys([Member(k, v)]) == [k]
    ensures SanitizedValues([Member(k, v)]) == [SanitizeObject(v)]
    ensures SanitizedPrototypes([Member(k, v)]) == [SanitizedPrototype(v)]
  {
  }

  lemma TwoMemberSeqs(k1: string, v1: Json, k2: string, v2: Json)
    ensures MemberKeys([Member(k1, v1), Member(k2, v2)]) == [k1, k2]
    ensures SanitizedValues([Member(k1, v1), Member(k2, v2)]) == [SanitizeObject(v1), SanitizeObject(v2)]
    ensures SanitizedPrototypes([Member(k1, v1), Member(k2, v2)]) == [SanitizedPrototype(v1), SanitizedPrototype(v2)]
  {
    OneMemberSeqs(k1, v1);
    OneMemberSeqs(k2, v2);
    AppendedSeqs([Member(k1, v1)], [Member(k2, v2)]);
  }

  /** The three sequences computed from an object's members distribute over concatenation. */
  lemma AppendedSeqs(ms: seq<Member>, ns: seq<Member>)
    ensures MemberKeys(ms + ns) == MemberKeys(ms) + MemberKeys(ns)
    ensures SanitizedValues(ms + ns) == SanitizedValues(ms) + SanitizedValues(ns)
    ensures SanitizedPrototypes(ms + ns) == SanitizedPrototypes(ms) + SanitizedPrototypes(ns)
  {
    AppendedKeys(ms, ns);
    AppendedValues(ms, ns);
    AppendedPrototypes(ms, ns);
  }

  lemma AppendedKeys(ms: seq<Member>, ns: seq<Member>)
    ensures MemberKeys(ms + ns) == MemberKeys(ms) + MemberKeys(ns)
  {
  }

  lemma AppendedValues(ms: seq<Member>, ns: seq<Member>)
    ensures SanitizedValues(ms + ns) == SanitizedValues(ms) + SanitizedValues(ns)
  {
    var l, r := SanitizedValues(ms + ns), SanitizedValues(ms) + SanitizedValues(ns);
    forall i | 0 <= i < |l|
      ensures l[i] == r[i]
    {
      if i < |ms| {
        assert (ms + ns)[i] == ms[i];
      } else {
        assert (ms + ns)[i] == ns[i - |ms|];
      }
    }
  }

  lemma AppendedPrototypes(ms: seq<Member>, ns: seq<Member>)
    ensures SanitizedPrototypes(ms + ns) == SanitizedPrototypes(ms) + SanitizedPrototypes(ns)
  {
    var l, r := SanitizedPrototypes(ms + ns), SanitizedPrototypes(ms) + SanitizedPrototypes(ns);
    forall i | 0 <= i < |l|
      ensures l[i] == r[i]
    {
      if i < |ms| {
        assert (ms + ns)[i] == ms[i];
      } else {
        assert (ms + ns)[i] == ns[i - |ms|];
      }
    }
  }

  /** The keys of the examples below pass the check and keep their names. */
  lemma ExampleKeyKept(k: string)
    requires k == PROTO_KEY || k == "isAdmin"
    ensures !IsInjectionKey(k) && SanitizeText(k) == k
  {
    assert forall i :: 0 <= i < |k| ==> ' ' < k[i] <= '~' && k[i] != '$' && k[i] != '.' && k[i] != ':';
    PlainKeyKept(k);
  }

  /** So does `__proto__` after a space, which trimming removes. */
  lemma SpacedProtoKeyKept()
    ensures !IsInjectionKey(" " + PROTO_KEY) && SanitizeText(" " + PROTO_KEY) == PROTO_KEY
  {
    var k := PROTO_KEY;
    assert forall i :: 0 <= i < |k| ==> ' ' < k[i] <= '~' && k[i] != '$' && k[i] != '.' && k[i] != ':';
    SpacedPlainKeyKept(k);
  }

  /** An object with one member is rebuilt by one step of the loop. */
  lemma OneMemberRebuilt(k: string, v: Json)
    ensures RebuiltObject([Member(k, v)])
         == KeepMember(Built([], ObjectPrototype), k, SanitizeObject(v), SanitizedPrototype(v), REFUSE, RENAME)
  {
    RebuiltUnfolds([Member(k, v)]);
    OneMemberSeqs(k, v);
  }

  /** An object with two members is rebuilt by two steps of the loop. */
  lemma TwoMembersRebuilt(k1: string, v1: Json, k2: string, v2: Json)
    ensures RebuiltObject([Member(k1, v1), Member(k2, v2)])
         == KeepMember(KeepMember(Built([], ObjectPrototype), k1, SanitizeObject(v1), SanitizedPrototype(v1), REFUSE, RENAME),
                       k2, SanitizeObject(v2), SanitizedPrototype(v2), REFUSE, RENAME)
  {
    RebuiltUnfolds([Member(k1, v1), Member(k2, v2)]);
    TwoMemberSeqs(k1, v1, k2, v2);
    var keys, vals, protos := [k1, k2], [SanitizeObject(v1), SanitizeObject(v2)], [SanitizedPrototype(v1), SanitizedPrototype(v2)];
    assert BuildObject(keys, vals, protos, 1, REFUSE, RENAME)
        == KeepMember(Built([], ObjectPrototype), k1, SanitizeObject(v1), SanitizedPrototype(v1), REFUSE, RENAME);
  }

  /**
   * A one-member object whose key passes and is renamed `__proto__` gets no
   * member: the accessor installs `null`, an object or an array and ignores
   * anything else.
   */
  lemma OneProtoMember(k: string, v: Json)
    requires !IsInjectionKey(k) && SanitizeText(k) == PROTO_KEY
    ensures RebuiltObject([Member(k, v)]).members == []
    ensures RebuiltObject([Member(k, v)]).proto ==
      if v.JNull? then NullPrototype
      else if v.JObject? || v.JArray? then Installed(SanitizeObject(v), SanitizedPrototype(v))
      else ObjectPrototype
  {
    OneMemberRebuilt(k, v);
    assert CallsProtoSetter(Built([], ObjectPrototype), PROTO_KEY);
  }

  /** A one-member object whose key passes, keeps its name and is not `__proto__` keeps that member, sanitised. */
  lemma OnePlainMember(k: string, v: Json)
    requires !IsInjectionKey(k) && SanitizeText(k) == k && k != PROTO_KEY
    ensures RebuiltObject([Member(k, v)]) == Built([Member(k, SanitizeObject(v))], ObjectPrototype)
  {
    OneMemberRebuilt(k, v);
    assert AssignMember([], k, SanitizeObject(v)) == [Member(k, SanitizeObject(v))];
  }

  /**
   * Two keys renamed `__proto__`, the first with the value `null`: the first
   * sets the prototype to `null`, so the second creates an own member.
   */
  lemma NullThenOwnProtoMember(k1: string, k2: string, v: Json)
    requires !IsInjectionKey(k1) && SanitizeText(k1) == PROTO_KEY
    requires !IsInjectionKey(k2) && SanitizeText(k2) == PROTO_KEY
    ensures RebuiltObject([Member(k1, JNull), Member(k2, v)]) == Built([Member(PROTO_KEY, SanitizeObject(v))], NullPrototype)
  {
    TwoMembersRebuilt(k1, JNull, k2, v);
    NullProtoStep(k1, SanitizedPrototype(JNull));
    OwnProtoAfterNull(k2, SanitizeObject(v), SanitizedPrototype(v));
  }

  /** On a fresh object, a key renamed `__proto__` with the value `null` sets the prototype to `null`. */
  lemma NullProtoStep(k: string, vp: Prototype)
    requires !IsInjectionKey(k) && SanitizeText(k) == PROTO_KEY
    ensures KeepMember(Built([], ObjectPrototype), k, JNull, vp, REFUSE, RENAME) == Built([], NullPrototype)
  {
    assert CallsProtoSetter(Built([], ObjectPrototype), PROTO_KEY);
  }

  /** Once the prototype is `null`, a key renamed `__proto__` is stored as an own member. */
  lemma OwnProtoAfterNull(k: string, x: Json, vp: Prototype)
    requires !IsInjectionKey(k) && SanitizeText(k) == PROTO_KEY
    ensures KeepMember(Built([], NullPrototype), k, x, vp, REFUSE, RENAME) == Built([Member(PROTO_KEY, x)], NullPrototype)
  {
    assert !CallsProtoSetter(Built([], NullPrototype), PROTO_KEY);
    assert AssignMember([], PROTO_KEY, x) == [Member(PROTO_KEY, x)];
  }

  /**
   * A key renamed `__proto__` whose value is an object with one plain member
   * installs that object as the prototype, through which the member is read.
   */
  lemma InstalledObjectInherited(k1: string, k2: string, v: Json)
    requires !IsInjectionKey(k1) && SanitizeText(k1) == PROTO_KEY
    requires !IsInjectionKey(k2) && SanitizeText(k2) == k2 && k2 != PROTO_KEY
    requires SanitizeObject(v) == v
    ensures var inner := JObject([Member(k2, v)]);
      && RebuiltObject([Member(k1, inner)]) == Built([], Installed(inner, ObjectPrototype))
      && PropertyOf(RebuiltObject([Member(k1, inner)]), k2) == Some(v)
  {
    var inner := JObject([Member(k2, v)]);
    OnePlainMember(k2, v);
    ObjectUnfolds(inner.members);
    assert SanitizeObject(inner) == inner && SanitizedPrototype(inner) == ObjectPrototype;
    OneProtoMember(k1, inner);
    InstalledMemberRead(k2, v, ObjectPrototype);
  }

  /** A member of an installed one-member object is read through the chain. */
  lemma InstalledMemberRead(k: string, v: Json, p: Prototype)
    ensures PropertyOf(Built([], Installed(JObject([Member(k, v)]), p)), k) == Some(v)
  {
    assert MemberIndex([Member(k, v)], k) == 0;
  }

  /**
   * `{"__proto__": {"isAdmin": true}}`: the assignment calls the accessor of
   * `Object.prototype`, so the result has no own member but inherits `isAdmin`.
   */
  lemma ProtoKeySetsPrototype()
    ensures var inner := JObject([Member("isAdmin", JBool(true))]);
      && RebuiltObject([Member(PROTO_KEY, inner)]) == Built([], Installed(inner, ObjectPrototype))
      && SanitizeObject(JObject([Member(PROTO_KEY, inner)])) == JObject([])
      && PropertyOf(RebuiltObject([Member(PROTO_KEY, inner)]), "isAdmin") == Some(JBool(true))
  {
    ExampleKeyKept(PROTO_KEY);
    ExampleKeyKept("isAdmin");
    InstalledObjectInherited(PROTO_KEY, "isAdmin", JBool(true));
    ObjectUnfolds([Member(PROTO_KEY, JObject([Member("isAdmin", JBool(true))]))]);
  }

  /** `{"__proto__": 1}`: the accessor ignores a number, so the result is `{}`. */
  lemma ProtoKeyPrimitiveIgnored()
    ensures RebuiltObject([Member(PROTO_KEY, JNumber(1))]) == Built([], ObjectPrototype)
    ensures SanitizeObject(JObject([Member(PROTO_KEY, JNumber(1))])) == JObject([])
  {
    ExampleKeyKept(PROTO_KEY);
    OneProtoMember(PROTO_KEY, JNumber(1));
    ObjectUnfolds([Member(PROTO_KEY, JNumber(1))]);
  }

  /**
   * `{"__proto__": null, " __proto__": 1}`: the first key sets the prototype to
   * `null`, after which no accessor is reached, and the second key, trimmed,
   * becomes an own `__proto__` member.
   */
  lemma NullPrototypeThenOwnProtoKey()
    ensures RebuiltObject([Member(PROTO_KEY, JNull), Member(" " + PROTO_KEY, JNumber(1))])
         == Built([Member(PROTO_KEY, JNumber(1))], NullPrototype)
  {
    ExampleKeyKept(PROTO_KEY);
    SpacedProtoKeyKept();
    NullThenOwnProtoMember(PROTO_KEY, " " + PROTO_KEY, JNumber(1));
  }

  /** The object case written as the loop of the source, filling a fresh dictionary. */
  method SanitizeMembers(ms: seq<Member>) returns (sanitized: seq<Member>, proto: Prototype)
    ensures Built(sanitized, proto) == RebuiltObject(ms)
    ensures JObject(sanitized) == SanitizeObject(JObject(ms))
  {
    var b := RebuildObject(MemberKeys(ms), SanitizedValues(ms), SanitizedPrototypes(ms), REFUSE, RENAME);
    sanitized, proto := b.members, b.proto;
  }

  /**
   * The loop of `sanitizeObject` over an object's keys: a refused key is
   * skipped, any other is assigned under its new name.
   */
  method RebuildObject(keys: seq<string>, vals: seq<Json>, protos: seq<Prototype>, refuse: string -> bool,
                       rename: string -> string) returns (r: Built)
    requires |keys| == |vals| == |protos|
    ensures r == BuildObject(keys, vals, protos, |keys|, refuse, rename)
  {
    r := Built([], ObjectPrototype);
    for n := 0 to |keys|
      invariant r == BuildObject(keys, vals, protos, n, refuse, rename)
    {
      r := KeepMember(r, keys[n], vals[n], protos[n], refuse, rename);
    }
  }

  // ---------------------------------------------------------------- middlewares

  /** The parts of a request the middlewares read and write. */
  class HttpRequest {
    var path: string
    var body: Json
    var params: Json
    var query: Json
    /** `req.sanitizedQuery`, absent until the sanitiser sets it. */
    var sanitizedQuery: Option<Json>

    constructor (path: string, body: Json, params: Json, query: Json)
      ensures this.path == path && this.body == body && this.params == params && this.query == query
      ensures sanitizedQuery == None
    {
      this.path := path;
      this.body := body;
      this.params := params;
      this.query := query;
      sanitizedQuery := None;
    }
  }

  /** `req.x && typeof req.x === 'object'` */
  predicate IsSanitizable(v: Json) {
    Truthy(v) && IsObjectType(v)
  }

  /** `noSQLSanitizer`: body and params are replaced, the query is left and a sanitised copy added. */
  method NoSqlSanitizer(req: HttpRequest)
    modifies req
    ensures req.path == old(req.path) && req.query == old(req.query)
    ensures req.body == if IsSanitizable(old(req.body)) then SanitizeObject(old(req.body)) else old(req.body)
    ensures req.params == if IsSanitizable(old(req.params)) then SanitizeObject(old(req.params)) else old(req.params)
    ensures req.sanitizedQuery == if IsSanitizable(old(req.query)) then Some(SanitizeObject(old(req.query))) else old(req.sanitizedQuery)
  {
    if IsSanitizable(req.body) {
      req.body := SanitizeObject(req.body);
    }
    if IsSanitizable(req.params) {
      req.params := SanitizeObject(req.params);
    }
    if IsSanitizable(req.query) {
      req.sanitizedQuery := Some(SanitizeObject(req.query));
    }
  }

  const CRITICAL_PATHS: seq<string> := ["/api/auth/", "/api/admin/", "/api/user/"]

  predicate IsCriticalPath(path: string) {
    exists i :: 0 <= i < |CRITICAL_PATHS| && Contains(path, CRITICAL_PATHS[i])
  }

  /** After index `k` of `s` come optional whitespace and then `c`. */
  predicate WhitespaceThen(s: string, k: nat, c: char) {
    exists j :: k <= j < |s| && AllWhitespace(s[k..j]) && s[j] == c
  }

  /** `/w\s*c/i` */
  predicate WordThen(s: string, w: string, c: char) {
    exists i :: 0 <= i <= |s| - |w| && StartsWithIgnoreCase(s[i..], w) && WhitespaceThen(s, i + |w|, c)
  }

  /** The suspicious-payload patterns, tested on the serialised body. */
  predicate IsSuspicious(s: string) {
    || WordThen(s, "eval", '(') || WordThen(s, "function", '(')
    || WordThen(s, "setTimeout", '(') || WordThen(s, "setInterval", '(')
    || ContainsIgnoreCase(s, "<script") || ContainsIgnoreCase(s, "javascript:") || ContainsIgnoreCase(s, "vbscript:")
    || WordThen(s, "onload", '=') || WordThen(s, "onerror", '=')
  }

  datatype RouteVerdict = Next | SuspiciousPayload

  /**
   * `criticalRouteValidator`: on a critical path with a body, a serialised body
   * (`JSON.stringify`, given as a parameter) matching a suspicious pattern is
   * answered with 400; every other request goes on.
   */
  function CriticalRouteVerdict(path: string, body: Json, stringify: Json -> string): (v: RouteVerdict)
    ensures v == SuspiciousPayload <==> IsCriticalPath(path) && Truthy(body) && IsSuspicious(stringify(body))
    ensures !IsCriticalPath(path) ==> v == Next
  {
    if IsCriticalPath(path) && Truthy(body) && IsSuspicious(stringify(body)) then SuspiciousPayload else Next
  }

  lemma WordThenHasChar(s: string, w: string, c: char)
    ensures WordThen(s, w, c) ==> c in s
  {
    if WordThen(s, w, c) {
      var i :| 0 <= i <= |s| - |w| && StartsWithIgnoreCase(s[i..], w) && WhitespaceThen(s, i + |w|, c);
      var j :| i + |w| <= j < |s| && AllWhitespace(s[i + |w|..j]) && s[j] == c;
    }
  }

  lemma ContainsIgnoreCaseHasChar(s: string, p: string, k: nat, c: char)
    requires k < |p| && p[k] == c && !IsAsciiLetter(c)
    ensures ContainsIgnoreCase(s, p) ==> c in s
  {
    if ContainsIgnoreCase(s, p) {
      var i :| 0 <= i <= |s| - |p| && StartsWithIgnoreCase(s[i..], p);
      StartsWithIgnoreCasePointwise(s[i..], p);
      assert ToLowerAscii(s[i..][k]) == ToLowerAscii(p[k]);
      assert s[i..][k] == s[i + k];
    }
  }

  /** A serialised body with none of `(`, `<`, `:`, `=` is never refused. */
  lemma PlainPayloadPasses(path: string, body: Json, stringify: Json -> string)
    requires var s := stringify(body); '(' !in s && '<' !in s && ':' !in s && '=' !in s
    ensures CriticalRouteVerdict(path, body, stringify) == Next
  {
    var s := stringify(body);
    WordThenHasChar(s, "eval", '(');
    WordThenHasChar(s, "function", '(');
    WordThenHasChar(s, "setTimeout", '(');
    WordThenHasChar(s, "setInterval", '(');
    WordThenHasChar(s, "onload", '=');
    WordThenHasChar(s, "onerror", '=');
    ContainsIgnoreCaseHasChar(s, "<script", 0, '<');
    ContainsIgnoreCaseHasChar(s, "javascript:", 10, ':');
    ContainsIgnoreCaseHasChar(s, "vbscript:", 8, ':');
  }

  /** The headers `additionalSecurityHeaders` sets for a request path. */
  function SecurityHeaders(path: string): (h: map<string, string>)
    ensures "X-Content-Type-Options" in h && h["X-Content-Type-Options"] == "nosniff"
    ensures "X-XSS-Protection" in h && h["X-XSS-Protection"] == "1; mode=block"
    ensures "X-Frame-Options" in h && h["X-Frame-Options"] == "DENY"
    ensures "Referrer-Policy" in h && h["Referrer-Policy"] == "strict-origin-when-cross-origin"
    ensures "Permissions-Policy" in h && h["Permissions-Policy"] == "geolocation=(), microphone=(), camera=(), payment=(), usb=()"
    ensures Contains(path, "/api/") ==>
      && "Cache-Control" in h && h["Cache-Control"] == "no-store, no-cache, must-revalidate, private"
      && "Pragma" in h && h["Pragma"] == "no-cache"
      && "Expires" in h && h["Expires"] == "0"
  {
    var base := map[
      "X-Content-Type-Options" := "nosniff",
      "X-XSS-Protection" := "1; mode=block",
      "X-Frame-Options" := "DENY",
      "Referrer-Policy" := "strict-origin-when-cross-origin",
      "Permissions-Policy" := "geolocation=(), microphone=(), camera=(), payment=(), usb=()"];
    if Contains(path, "/api/") then
      base["Cache-Control" := "no-store, no-cache, must-revalidate, private"]["Pragma" := "no-cache"]["Expires" := "0"]
    else base
  }

  class HttpResponse {
    var headers: map<string, string>
    var status: Option<int>
    var rejection: Option<RouteVerdict>

    constructor ()
      ensures headers == map[] && status == None && rejection == None
    {
      headers := map[];
      status := None;
      rejection := None;
    }
  }

  /** The cache headers are set only on API paths, and no header besides the named ones is ever set. */
  lemma SecurityHeadersKeys(path: string)
    ensures var h := SecurityHeaders(path);
      && ("Cache-Control" in h <==> Contains(path, "/api/"))
      && ("Pragma" in h <==> Contains(path, "/api/"))
      && ("Expires" in h <==> Contains(path, "/api/"))
      && h.Keys == {"X-Content-Type-Options", "X-XSS-Protection", "X-Frame-Options", "Referrer-Policy", "Permissions-Policy"}
                  + if Contains(path, "/api/") then {"Cache-Control", "Pragma", "Expires"} else {}
  {
  }

  /** `additionalSecurityHeaders`: sets (or overwrites) its headers and goes on. */
  method AdditionalSecurityHeaders(req: HttpRequest, res: HttpResponse)
    modifies res
    ensures res.headers == old(res.headers) + SecurityHeaders(req.path)
    ensures res.status == old(res.status) && res.rejection == old(res.rejection)
  {
    res.headers := res.headers + SecurityHeaders(req.path);
  }

  /** `criticalRouteValidator`: returns whether `next()` is called; a refusal sets status 400. */
  method CriticalRouteValidator(req: HttpRequest, res: HttpResponse, stringify: Json -> string) returns (next: bool)
    modifies res
    ensures next <==> CriticalRouteVerdict(req.path, req.body, stringify) == Next
    ensures next ==> res.status == old(res.status) && res.rejection == old(res.rejection)
    ensures !next ==> res.status == Some(400) && res.rejection == Some(SuspiciousPayload)
    ensures res.headers == old(res.headers)
  {
    if CriticalRouteVerdict(req.path, req.body, stringify) == SuspiciousPayload {
      res.status := Some(400);
      res.rejection := Some(SuspiciousPayload);
      return false;
    }
    return true;
  }
}
