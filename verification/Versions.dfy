/** Version strings and their order. */
module Versions {
  import opened Basics

  const MAX_INT: nat := 0x7FFF_FFFF_FFFF_FFFF

  // ---- Reading a version ----

  predicate IsDigit(c: char) { '0' <= c <= '9' }

  function Digits(s: string): nat
    requires forall i :: 0 <= i < |s| ==> IsDigit(s[i])
  {
    if s == "" then 0
    else
      assert IsDigit(s[|s| - 1]);
      Digits(s[..|s| - 1]) * 10 + (s[|s| - 1] as int - '0' as int)
  }

  /** A number without sign, as far as an int holds it. */
  function Atoi(s: string): Option<nat> {
    if s != "" && (forall i :: 0 <= i < |s| ==> IsDigit(s[i])) && Digits(s) <= MAX_INT then Some(Digits(s)) else None
  }

  /** The part of s before its first character out of `stops`. */
  function Before(s: string, stops: set<char>): string {
    if s == "" || s[0] in stops then "" else [s[0]] + Before(s[1..], stops)
  }

  function Split(s: string, sep: char): seq<string> {
    var first := Before(s, {sep});
    BeforeIsShorter(s, {sep});
    if first == s then [s] else [first] + Split(s[|first| + 1..], sep)
  }

  lemma {:induction false} BeforeIsShorter(s: string, stops: set<char>)
    ensures Before(s, stops) <= s
    ensures forall c :: c in Before(s, stops) ==> c !in stops
    ensures Before(s, stops) == s || s[|Before(s, stops)|] in stops
    decreases |s|
  {
    if s != "" && s[0] !in stops { BeforeIsShorter(s[1..], stops); }
  }

  function Core(s: string): string {
    var t := if s != "" && s[0] == 'v' then s[1..] else s;
    Before(t, {'-', '+', ' '})
  }

  function NumberAt(parts: seq<string>, i: nat): Option<nat> {
    if i < |parts| then Atoi(parts[i]) else Some(0)
  }

  /** Major, minor and patch; what is missing is 0. */
  function Numbers(s: string): Option<seq<nat>> {
    var parts := Split(Core(s), '.');
    if NumberAt(parts, 0).None? || NumberAt(parts, 1).None? || NumberAt(parts, 2).None? then None
    else Some([NumberAt(parts, 0).value, NumberAt(parts, 1).value, NumberAt(parts, 2).value])
  }

  method VersionNumbers(s: string) returns (nums: Option<seq<nat>>)
    ensures nums == Numbers(s)
  {
    var parts := Split(Core(s), '.');
    var out := new nat[3](_ => 0);
    var i := 0;
    while i < |parts| && i < 3
      invariant 0 <= i <= 3
      invariant forall k :: 0 <= k < i ==> NumberAt(parts, k) == Some(out[k])
      invariant forall k :: i <= k < 3 ==> out[k] == 0
    {
      var n := Atoi(parts[i]);
      if n.None? {
        assert NumberAt(parts, i).None? && (i == 0 || i == 1 || i == 2);
        return None;
      }
      out[i] := n.value;
      i := i + 1;
    }
    assert forall k :: i <= k < 3 ==> NumberAt(parts, k) == Some(0);
    assert out[..] == [out[0], out[1], out[2]];
    nums := Some(out[..]);
  }

  predicate IsPrerelease(v: string) {
    '-' in Before(v, {'+'})
  }

  predicate Less(a: string, b: string) {
    var x, y := Numbers(a), Numbers(b);
    if x.None? || y.None? then false
    else if x.value[0] != y.value[0] then x.value[0] < y.value[0]
    else if x.value[1] != y.value[1] then x.value[1] < y.value[1]
    else if x.value[2] != y.value[2] then x.value[2] < y.value[2]
    else IsPrerelease(a) && !IsPrerelease(b)
  }

  method VersionLess(a: string, b: string) returns (less: bool)
    ensures less == Less(a, b)
  {
    var x := VersionNumbers(a);
    var y := VersionNumbers(b);
    if x.None? || y.None? { return false; }
    var i := 0;
    while i < 3
      invariant 0 <= i <= 3
      invariant forall k :: 0 <= k < i ==> x.value[k] == y.value[k]
    {
      if x.value[i] != y.value[i] { return x.value[i] < y.value[i]; }
      i := i + 1;
    }
    less := IsPrerelease(a) && !IsPrerelease(b);
  }

  // ---- The order ----

  predicate Parses(v: string) { Numbers(v).Some? }

  predicate Same(a: string, b: string) { !Less(a, b) && !Less(b, a) }

  /** On versions that parse, Less is a strict weak order: by numbers, a prerelease before its
      release, and two prereleases of the same numbers alike. */
  lemma StrictWeakOrder(a: string, b: string, c: string)
    requires Parses(a) && Parses(b) && Parses(c)
    ensures !Less(a, a)
    ensures Less(a, b) && Less(b, c) ==> Less(a, c)
    ensures Same(a, b) && Same(b, c) ==> Same(a, c)
    ensures Same(a, b) <==> Numbers(a) == Numbers(b) && (IsPrerelease(a) <==> IsPrerelease(b))
  {
    hide Numbers, IsPrerelease;
    var x, y := Numbers(a).value, Numbers(b).value;
    Three(a);
    Three(b);
    Three(c);
    if Same(a, b) { assert x == y; }
  }

  lemma Three(a: string)
    requires Parses(a)
    ensures |Numbers(a).value| == 3
  {
  }

  /** Less orders these strings as versions: strictly, and being alike is transitive. */
  ghost predicate OrdersStrictlyWeakly(s: iset<string>) {
    && (forall a :: a in s ==> !Less(a, a))
    && (forall a, b, c :: a in s && b in s && c in s && Less(a, b) && Less(b, c) ==> Less(a, c))
    && (forall a, b, c :: a in s && b in s && c in s && Same(a, b) && Same(b, c) ==> Same(a, c))
  }

  /** Strings are strictly weakly ordered if and only if all of them parse or none is less than
      another: one that does not parse is like all others, which then must be alike. */
  lemma StrictlyWeaklyOrderedIff(s: iset<string>)
    ensures OrdersStrictlyWeakly(s) <==> (forall v :: v in s ==> Parses(v)) || (forall a, b :: a in s && b in s ==> !Less(a, b))
  {
    forall a, b, c ensures !Less(a, a) && (Less(a, b) && Less(b, c) ==> Less(a, c)) {
      if Parses(a) && Parses(b) && Parses(c) { StrictWeakOrder(a, b, c); }
    }
    forall a, b, c | Parses(a) && Parses(b) && Parses(c) && Same(a, b) && Same(b, c) ensures Same(a, c) {
      StrictWeakOrder(a, b, c);
    }
    forall a, v | !Parses(v) ensures Same(a, v) && Same(v, a) {
    }
    hide Less, Parses;
    if v, a, b :| v in s && !Parses(v) && a in s && b in s && Less(a, b) {
      assert Same(a, v) && Same(v, b) && !Same(a, b);
    }
  }

  /** So it is not an order on all strings. */
  lemma UnparseableIsLikeEverything()
    ensures Same("1", "x") && Same("x", "2") && Less("1", "2")
  {
    ReadDigit('1');
    ReadDigit('2');
    assert Before("x", {'-', '+', ' '}) == "x" by { assert "x"[1..] == ""; }
    assert Before("x", {'.'}) == "x" by { assert "x"[1..] == ""; }
    assert Core("x") == "x";
    assert Split("x", '.') == ["x"];
  }

  lemma ReadDigit(c: char)
    requires IsDigit(c)
    ensures Numbers([c]) == Some([c as int - '0' as int, 0, 0])
  {
    assert [c][1..] == "" && [c][..0] == "";
    BeforeStop([c], "", {'-', '+', ' '});
    BeforeStop([c], "", {'.'});
    assert [c] + "" == [c];
    assert Core([c]) == [c] && Split([c], '.') == [[c]];
    assert Digits([c]) == c as int - '0' as int;
  }

  // ---- Reading back what was written ----

  function Show(n: nat): string {
    if n < 10 then [('0' as int + n) as char] else Show(n / 10) + [('0' as int + n % 10) as char]
  }

  lemma {:induction false} ShownIsRead(n: nat)
    ensures Show(n) != "" && (forall i :: 0 <= i < |Show(n)| ==> IsDigit(Show(n)[i])) && Digits(Show(n)) == n
  {
    if n < 10 {
      assert Show(n)[..0] == "";
    } else {
      ShownIsRead(n / 10);
      assert Show(n)[..|Show(n)| - 1] == Show(n / 10);
    }
  }

  lemma {:induction false} BeforeStop(s: string, rest: string, stops: set<char>)
    requires forall c :: c in s ==> c !in stops
    requires rest == "" || rest[0] in stops
    ensures Before(s + rest, stops) == s
    decreases |s|
  {
    if s == "" {
      assert s + rest == rest;
    } else {
      assert (s + rest)[1..] == s[1..] + rest;
      BeforeStop(s[1..], rest, stops);
    }
  }

  lemma SplitFirst(s: string, rest: string)
    requires '.' !in s
    ensures Split(s + "." + rest, '.') == [s] + Split(rest, '.') && Split(s, '.') == [s]
  {
    assert s + "." + rest == s + ("." + rest);
    BeforeStop(s, "." + rest, {'.'});
    BeforeStop(s, "", {'.'});
    assert s + "" == s;
    assert (s + "." + rest)[|s| + 1..] == rest;
  }

  lemma ThreePartsAreRead(a: string, b: string, c: string)
    requires '.' !in a && '.' !in b && '.' !in c
    ensures Split(a + "." + (b + "." + c), '.') == [a, b, c]
  {
    SplitFirst(a, b + "." + c);
    SplitFirst(b, c);
    SplitFirst(c, "");
    hide Split;
    assert [a] + ([b] + [c]) == [a, b, c];
  }

  lemma CoreIsRead(core: string, v: bool, suffix: string)
    requires core != "" && core[0] != 'v' && (forall x :: x in core ==> x !in {'-', '+', ' '})
    requires suffix == "" || suffix[0] in {'-', '+', ' '}
    ensures Core((if v then "v" else "") + core + suffix) == core
  {
    BeforeStop(core, suffix, {'-', '+', ' '});
    var s := (if v then "v" else "") + core + suffix;
    hide Before;
    if v { assert s[1..] == core + suffix; } else { assert s == core + suffix; }
  }

  /** A version written as three numbers, with or without a v before and a suffix behind, is
      read as these numbers. */
  lemma WrittenIsRead(a: nat, b: nat, c: nat, v: bool, suffix: string)
    requires a <= MAX_INT && b <= MAX_INT && c <= MAX_INT && (suffix == "" || suffix[0] in {'-', '+', ' '})
    ensures Numbers((if v then "v" else "") + (Show(a) + "." + (Show(b) + "." + Show(c))) + suffix) == Some([a, b, c])
  {
    hide Show, Digits, Atoi, Split, Core;
    var x, y, z := Show(a), Show(b), Show(c);
    ShownIsNumeral(a);
    ShownIsNumeral(b);
    ShownIsNumeral(c);
    ThreePartsAreRead(x, y, z);
    var core := x + "." + (y + "." + z);
    CoreIsRead(core, v, suffix);
    assert NumberAt([x, y, z], 0) == Some(a) && NumberAt([x, y, z], 1) == Some(b) && NumberAt([x, y, z], 2) == Some(c);
  }

  lemma ShownIsNumeral(n: nat)
    requires n <= MAX_INT
    ensures Atoi(Show(n)) == Some(n)
    ensures var s := Show(n); s != "" && '.' !in s && s[0] != 'v' && forall x :: x in s ==> x !in {'-', '+', ' '}
  {
    ShownIsRead(n);
    hide Show, Digits;
    Numeral(Show(n));
  }

  lemma Numeral(s: string)
    requires Atoi(s).Some?
    ensures s != "" && '.' !in s && s[0] != 'v' && forall x :: x in s ==> x !in {'-', '+', ' '}
  {
    assert IsDigit(s[0]);
    forall x | x in s ensures x != '.' && x !in {'-', '+', ' '} {
      assert IsDigit(x);
    }
  }

  // ---- The order of written versions ----

  function Written(a: nat, b: nat, c: nat): string {
    Show(a) + "." + (Show(b) + "." + Show(c))
  }

  lemma {:induction false} BeforeJoin(s: string, rest: string, stops: set<char>)
    requires forall x :: x in s ==> x !in stops
    ensures Before(s + rest, stops) == s + Before(rest, stops)
    decreases |s|
  {
    if s == "" {
      assert s + rest == rest;
    } else {
      assert (s + rest)[1..] == s[1..] + rest;
      BeforeJoin(s[1..], rest, stops);
    }
  }

  lemma WrittenIsPlain(a: nat, b: nat, c: nat)
    ensures forall x :: x in Written(a, b, c) ==> x !in {'-', '+', ' '}
  {
    ShownIsRead(a);
    ShownIsRead(b);
    ShownIsRead(c);
    hide Show, Digits;
    forall x | x in Written(a, b, c) ensures x !in {'-', '+', ' '} {
      if x != '.' { assert IsDigit(x) by { WrittenOf(a, b, c, x); } }
    }
  }

  lemma WrittenOf(a: nat, b: nat, c: nat, x: char)
    requires x in Written(a, b, c) && x != '.'
    ensures IsDigit(x)
  {
    ShownIsRead(a);
    ShownIsRead(b);
    ShownIsRead(c);
    hide Show, Digits;
    assert x in Show(a) || x in Show(b) || x in Show(c);
  }

  /** Whether a suffix makes a version a prerelease: its part before build metadata does. */
  lemma PrereleaseBySuffix(a: nat, b: nat, c: nat, suffix: string)
    ensures IsPrerelease(Written(a, b, c) + suffix) <==> '-' in Before(suffix, {'+'})
  {
    WrittenIsPlain(a, b, c);
    hide Written;
    BeforeJoin(Written(a, b, c), suffix, {'+'});
    assert '-' !in Written(a, b, c);
  }

  predicate SuffixOk(s: string) { s == "" || s[0] in {'-', '+', ' '} }

  /** Written versions are ordered by their numbers, one after the other; with the same numbers
      a prerelease comes before a release, and build metadata makes no difference. */
  lemma WrittenAreOrdered(a: nat, b: nat, c: nat, s: string, x: nat, y: nat, z: nat, t: string)
    requires a <= MAX_INT && b <= MAX_INT && c <= MAX_INT && x <= MAX_INT && y <= MAX_INT && z <= MAX_INT && SuffixOk(s) && SuffixOk(t)
    ensures var first, second := '-' in Before(s, {'+'}), '-' in Before(t, {'+'});
      Less(Written(a, b, c) + s, Written(x, y, z) + t) <==>
        a < x || (a == x && (b < y || (b == y && (c < z || (c == z && first && !second)))))
  {
    var v, w := Written(a, b, c) + s, Written(x, y, z) + t;
    WrittenIsRead(a, b, c, false, s);
    WrittenIsRead(x, y, z, false, t);
    assert "" + Written(a, b, c) + s == v && "" + Written(x, y, z) + t == w;
    PrereleaseBySuffix(a, b, c, s);
    PrereleaseBySuffix(x, y, z, t);
    hide Numbers, IsPrerelease, Before, Show;
  }
}
