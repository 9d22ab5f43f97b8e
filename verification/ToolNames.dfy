/** Provider-safe names for MCP servers and tools. Strings are UTF-16 code units. */
module ToolNames {
  import opened Base
  import opened Decimal
  import opened Text
  import opened Sorting

  type Str = seq<int>

  const MAX_PREFIX: nat := 30
  const MAX_TOTAL: nat := 64
  const HYPHEN: int := 45
  const SEPARATOR: Str := [95, 95]
  const MCP: Str := [109, 99, 112]
  const TOOL: Str := [116, 111, 111, 108]

  // ---------------------------------------------------------------------------
  // Strings
  // ---------------------------------------------------------------------------

  predicate IsLetter(c: int) {
    65 <= c <= 90 || 97 <= c <= 122
  }

  predicate IsSafe(c: int) {
    IsLetter(c) || IsDigit(c) || c == 95 || c == HYPHEN
  }

  predicate Safe(s: Str) {
    forall i :: 0 <= i < |s| ==> IsSafe(s[i])
  }

  predicate StartsWithLetter(s: Str) {
    s != [] && IsLetter(s[0])
  }

  /** The form in which names are compared. */
  function Norm(s: Str): Str {
    Lower(Trim(s))
  }

  function Cut(s: Str, max: nat): (r: Str)
    ensures |r| <= max && r <= s
  {
    if |s| > max then s[..max] else s
  }

  lemma NormIdempotent(s: Str)
    ensures Norm(Norm(s)) == Norm(s)
  {
    TrimStartDone(s);
    TrimEndDone(TrimStart(s));
    assert Trim(Norm(s)) == Norm(s);
  }

  /** Safe names are compared by their ASCII letters alone. */
  lemma SafeNorm(s: Str)
    requires Safe(s)
    ensures Norm(s) == Lower(s)
  {
    assert s != [] ==> IsSafe(s[0]) && IsSafe(s[|s| - 1]);
  }

  /** Equal up to the case of ASCII letters. */
  ghost predicate SameIgnoringCase(a: Str, b: Str) {
    |a| == |b| && forall i :: 0 <= i < |a| ==>
      a[i] == b[i] || (65 <= a[i] <= 90 && b[i] == a[i] + 32) || (65 <= b[i] <= 90 && a[i] == b[i] + 32)
  }

  lemma CaseIgnored(a: Str, b: Str)
    ensures Lower(a) == Lower(b) <==> SameIgnoringCase(a, b)
  {
    if Lower(a) == Lower(b) {
      forall i | 0 <= i < |a| ensures LowerUnit(a[i]) == LowerUnit(b[i]) {
        assert Lower(a)[i] == Lower(b)[i];
      }
    }
  }

  /** Comparing safe names is comparing them without regard to case. */
  lemma SafeNamesCompare(a: Str, b: Str)
    requires Safe(a) && Safe(b)
    ensures Norm(a) == Norm(b) <==> SameIgnoringCase(a, b)
  {
    SafeNorm(a);
    SafeNorm(b);
    CaseIgnored(a, b);
  }

  // ---------------------------------------------------------------------------
  // Fragments
  // ---------------------------------------------------------------------------

  function Clean(s: Str): (r: Str)
    ensures |r| == |s| && Safe(r)
    ensures forall i :: 0 <= i < |s| && IsSafe(s[i]) ==> r[i] == s[i]
  {
    seq(|s|, i requires 0 <= i < |s| => if IsSafe(s[i]) then s[i] else HYPHEN)
  }

  /** No maximum, or zero, leaves the fragment uncut. */
  function SanitizeFragment(raw: Str, fallback: Str, maxChars: Option<nat>): (r: Str)
    requires Safe(fallback) && StartsWithLetter(fallback)
    ensures Safe(r) && StartsWithLetter(r)
    ensures maxChars.Some? && maxChars.value > 0 ==> |r| <= maxChars.value
    ensures Safe(raw) && StartsWithLetter(raw) ==> r == if maxChars.Some? && maxChars.value > 0 then Cut(raw, maxChars.value) else raw
  {
    SafeFragmentKept(raw);
    var cleaned := Clean(Trim(raw));
    var normalized := if cleaned != [] then cleaned else fallback;
    var providerSafe := if StartsWithLetter(normalized) then normalized else fallback + [HYPHEN] + normalized;
    if maxChars.None? || maxChars.value == 0 then providerSafe else Cut(providerSafe, maxChars.value)
  }

  lemma SafeFragmentKept(raw: Str)
    ensures Safe(raw) ==> Clean(Trim(raw)) == raw
  {
    if Safe(raw) {
      assert raw != [] ==> IsSafe(raw[0]) && IsSafe(raw[|raw| - 1]);
      assert Trim(raw) == raw;
    }
  }

  /** `clean` is `s` with a hyphen for everything but ASCII letters, digits, underscores and hyphens. */
  ghost predicate CleanedTo(s: Str, clean: Str) {
    |clean| == |s| && forall i :: 0 <= i < |s| ==>
      clean[i] == if 65 <= s[i] <= 90 || 97 <= s[i] <= 122 || 48 <= s[i] <= 57 || s[i] == 95 || s[i] == 45 then s[i] else 45
  }

  /** The whole fragment of a name: its cleaned form, behind the fallback and a hyphen unless it starts with a
      letter; the fallback alone when nothing is left. */
  ghost predicate FragmentOf(raw: Str, fallback: Str, whole: Str) {
    exists t, clean :: Stripped(raw, t) && CleanedTo(t, clean) && whole == Fronted(clean, fallback)
  }

  ghost function Fronted(clean: Str, fallback: Str): Str {
    if clean == [] then fallback
    else if 65 <= clean[0] <= 90 || 97 <= clean[0] <= 122 then clean
    else fallback + [45] + clean
  }

  /** A sanitised fragment is the whole fragment, cut to the maximum if there is one. */
  lemma FragmentExactly(raw: Str, fallback: Str, maxChars: Option<nat>, whole: Str)
    requires Safe(fallback) && StartsWithLetter(fallback) && FragmentOf(raw, fallback, whole)
    ensures SanitizeFragment(raw, fallback, maxChars) ==
            if maxChars.None? || maxChars.value == 0 || |whole| <= maxChars.value then whole else whole[..maxChars.value]
  {
    var t, clean :| Stripped(raw, t) && CleanedTo(t, clean) && whole == Fronted(clean, fallback);
    TrimStrips(raw);
    StrippedIsUnique(raw, t, Trim(raw));
    hide Trim, Stripped;
    assert Clean(t) == clean;
  }

  /** Every name has its whole fragment. */
  lemma FragmentExists(raw: Str, fallback: Str)
    ensures exists whole :: FragmentOf(raw, fallback, whole)
  {
    TrimStrips(raw);
    hide Trim, Stripped;
    var t := Trim(raw);
    assert CleanedTo(t, Clean(t));
    assert FragmentOf(raw, fallback, Fronted(Clean(t), fallback));
  }

  // ---------------------------------------------------------------------------
  // Numbered candidates
  // ---------------------------------------------------------------------------

  function Suffix(n: nat): Str {
    [HYPHEN] + Digits(n)
  }

  function AtLeastOne(n: int): (r: nat)
    ensures r >= 1
  {
    if n < 1 then 1 else n
  }

  /** The `n`-th numbered form of a name, within the budget while the suffix leaves room. */
  function Numbered(prefix: Str, name: Str, budget: nat, n: nat): Str {
    prefix + Cut(name, AtLeastOne(budget - |Suffix(n)|)) + Suffix(n)
  }

  /** All numbered forms. */
  function Candidates(prefix: Str, name: Str, budget: nat): nat -> Str {
    (n: nat) => Numbered(prefix, name, budget, n)
  }

  lemma {:induction false} TrimStartBefore(x: Str, d: Str)
    requires d != [] && !IsWhite(d[0])
    ensures TrimStart(x + d) == TrimStart(x) + d
  {
    if x == [] {
      assert x + d == d;
    } else if IsWhite(x[0]) {
      assert (x + d)[1..] == x[1..] + d;
      TrimStartBefore(x[1..], d);
    }
  }

  lemma SuffixShape(n: nat)
    ensures var d := Suffix(n);
            |d| >= 2 && !IsWhite(d[0]) && !IsWhite(d[|d| - 1]) && Lower(d) == d
  {
    hide Digits, Value;
    var d := Suffix(n);
    assert IsDigit(Digits(n)[|Digits(n)| - 1]);
    assert forall i :: 0 <= i < |d| ==> d[i] == HYPHEN || IsDigit(d[i]);
  }

  lemma NothingToTrimAtEnd(s: Str)
    requires s != [] && !IsWhite(s[|s| - 1])
    ensures TrimEnd(s) == s
  {
  }

  lemma TrimBefore(x: Str, d: Str)
    requires d != [] && !IsWhite(d[0]) && !IsWhite(d[|d| - 1])
    ensures Trim(x + d) == TrimStart(x) + d
  {
    hide TrimStart, TrimEnd, IsWhite;
    TrimStartBefore(x, d);
    var t := TrimStart(x) + d;
    assert t[|t| - 1] == d[|d| - 1];
    NothingToTrimAtEnd(t);
  }

  lemma LowerConcat(a: Str, b: Str)
    ensures Lower(a + b) == Lower(a) + Lower(b)
  {
  }

  /** Comparing keeps a trailing suffix. */
  lemma NormOfSuffixed(x: Str, n: nat)
    ensures Norm(x + Suffix(n)) == Lower(TrimStart(x)) + Suffix(n)
  {
    hide Suffix, TrimStart, Trim, Lower, IsWhite;
    SuffixShape(n);
    TrimBefore(x, Suffix(n));
    LowerConcat(TrimStart(x), Suffix(n));
  }

  /** The digits behind the last hyphen are determined. */
  lemma SameSuffix(a: Str, b: Str, n: nat, m: nat)
    requires a + Suffix(n) == b + Suffix(m)
    ensures n == m
  {
    var s := a + Suffix(n);
    assert s[|a|] == HYPHEN && s[|b|] == HYPHEN;
    forall i | |a| < i < |s| ensures IsDigit(s[i]) {
      assert s[i] == Digits(n)[i - |a| - 1];
    }
    forall i | |b| < i < |s| ensures IsDigit(s[i]) {
      assert s[i] == Digits(m)[i - |b| - 1];
    }
    assert |a| == |b|;
    assert s[|a| + 1..] == Digits(n) && s[|b| + 1..] == Digits(m);
  }

  ghost predicate DistinctForms(cand: nat -> Str) {
    forall i: nat, j: nat :: Norm(cand(i)) == Norm(cand(j)) ==> i == j
  }

  /** No two numbered forms compare equal, whatever was cut. */
  lemma CandidatesDistinct(prefix: Str, name: Str, budget: nat)
    ensures DistinctForms(Candidates(prefix, name, budget))
  {
    var cand := Candidates(prefix, name, budget);
    forall i: nat, j: nat | Norm(cand(i)) == Norm(cand(j)) ensures i == j {
      var x := prefix + Cut(name, AtLeastOne(budget - |Suffix(i)|));
      var y := prefix + Cut(name, AtLeastOne(budget - |Suffix(j)|));
      assert cand(i) == x + Suffix(i) && cand(j) == y + Suffix(j);
      NormOfSuffixed(x, i);
      NormOfSuffixed(y, j);
      SameSuffix(Lower(TrimStart(x)), Lower(TrimStart(y)), i, j);
    }
  }

  // ---------------------------------------------------------------------------
  // The suffix search
  // ---------------------------------------------------------------------------

  ghost predicate AllTaken(cand: nat -> Str, used: set<Str>, n: nat) {
    forall k: nat :: 2 <= k < n ==> Norm(cand(k)) in used
  }

  ghost function Forms(cand: nat -> Str, n: nat): set<Str> {
    set k: nat | 2 <= k < n :: Norm(cand(k))
  }

  lemma {:induction false} FormsCount(cand: nat -> Str, n: nat)
    requires DistinctForms(cand) && n >= 2
    ensures |Forms(cand, n)| == n - 2
  {
    hide Norm;
    if n == 2 {
      assert Forms(cand, n) == {};
    } else {
      FormsCount(cand, n - 1);
      assert Norm(cand(n - 1)) !in Forms(cand, n - 1);
      assert Forms(cand, n) == Forms(cand, n - 1) + {Norm(cand(n - 1))};
    }
  }

  /** The taken forms are distinct members of the used names, so there are no more of them. */
  lemma Pigeonhole(cand: nat -> Str, used: set<Str>, n: nat)
    requires DistinctForms(cand) && n >= 2 && AllTaken(cand, used, n)
    ensures n - 2 <= |used|
  {
    FormsCount(cand, n);
    SubsetSize(Forms(cand, n), used);
  }

  /** The least number from `n` on whose form is free; at most one more number is tried than
      there are used names. */
  function FirstFree(cand: nat -> Str, used: set<Str>, n: nat): (r: nat)
    requires DistinctForms(cand) && n >= 2 && AllTaken(cand, used, n)
    ensures r >= n && Norm(cand(r)) !in used && AllTaken(cand, used, r)
    ensures r - 1 <= |used| + 1
    decreases |used| + 2 - n
  {
    Pigeonhole(cand, used, n);
    if Norm(cand(n)) in used then
      assert AllTaken(cand, used, n + 1);
      Pigeonhole(cand, used, n + 1);
      FirstFree(cand, used, n + 1)
    else n
  }

  /** The plain name if it is free, else its first free numbered form. */
  function Allocate(first: Str, cand: nat -> Str, used: set<Str>): (r: Str)
    requires DistinctForms(cand)
    ensures Norm(r) !in used
    ensures Norm(first) !in used ==> r == first
  {
    if Norm(first) in used then cand(FirstFree(cand, used, 2)) else first
  }

  /** The search loop both allocators share. */
  method Search(first: Str, prefix: Str, name: Str, budget: nat, used: set<Str>) returns (candidate: Str)
    ensures DistinctForms(Candidates(prefix, name, budget))
    ensures candidate == Allocate(first, Candidates(prefix, name, budget), used)
  {
    CandidatesDistinct(prefix, name, budget);
    ghost var cand := Candidates(prefix, name, budget);
    candidate := first;
    var n: nat := 2;
    while Norm(candidate) in used
      invariant n >= 2 && candidate == if n == 2 then first else cand(n - 1)
      invariant AllTaken(cand, used, n - 1) && n - 3 <= |used|
      invariant n > 2 ==> Norm(first) in used
      decreases |used| + 3 - n
    {
      assert AllTaken(cand, used, n);
      Pigeonhole(cand, used, n);
      var suffix := [HYPHEN] + Digits(n);
      candidate := prefix + Cut(name, AtLeastOne(budget - |suffix|)) + suffix;
      n := n + 1;
    }
    if n > 2 {
      SearchEnds(cand, used, n - 1, 2);
    }
  }

  lemma {:induction false} SearchEnds(cand: nat -> Str, used: set<Str>, r: nat, from: nat)
    requires DistinctForms(cand) && 2 <= from <= r && AllTaken(cand, used, r) && Norm(cand(r)) !in used
    ensures FirstFree(cand, used, from) == r
    decreases r - from
  {
    if from < r {
      SearchEnds(cand, used, r, from + 1);
    }
  }

  /** `r` is the prefix, as much of the name as leaves room for the number, at least one character, and
      the number behind a hyphen. */
  predicate NumberedAs(r: Str, prefix: Str, name: Str, room: int, n: nat) {
    var space := room - 1 - |Digits(n)|;
    var kept := if space < 1 then 1 else space;
    r == prefix + (if |name| <= kept then name else name[..kept]) + [45] + Digits(n)
  }

  /** `r` is the plain name if nothing taken equals it, and else the first numbered form, from two on, that is free. */
  ghost predicate FirstFreeForm(r: Str, prefix: Str, name: Str, room: int, used: set<Str>) {
    && Norm(r) !in used
    && if Norm(prefix + name) !in used then r == prefix + name
       else exists n: nat :: n >= 2 && NumberedAs(r, prefix, name, room, n)
              && forall k: nat, other :: 2 <= k < n && NumberedAs(other, prefix, name, room, k) ==> Norm(other) in used
  }

  lemma AllocatesFirstFree(prefix: Str, name: Str, budget: nat, used: set<Str>)
    requires DistinctForms(Candidates(prefix, name, budget))
    ensures FirstFreeForm(Allocate(prefix + name, Candidates(prefix, name, budget), used), prefix, name, budget, used)
  {
    hide Norm, Digits, DistinctForms;
    var cand := Candidates(prefix, name, budget);
    forall n: nat, r ensures NumberedAs(r, prefix, name, budget, n) <==> r == cand(n) {
      NumberedIs(prefix, name, budget, n);
    }
    if Norm(prefix + name) in used {
      var n := FirstFree(cand, used, 2);
      hide FirstFree, NumberedAs, Numbered;
      assert NumberedAs(cand(n), prefix, name, budget, n);
    }
  }

  lemma NumberedIs(prefix: Str, name: Str, budget: nat, n: nat)
    ensures forall r :: NumberedAs(r, prefix, name, budget, n) <==> r == Numbered(prefix, name, budget, n)
  {
    hide Digits;
    var keep := Cut(name, AtLeastOne(budget - |Suffix(n)|));
    assert prefix + keep + Suffix(n) == prefix + keep + [45] + Digits(n);
  }

  // ---------------------------------------------------------------------------
  // Server names
  // ---------------------------------------------------------------------------

  function ServerBase(raw: Str): (base: Str)
    ensures Safe(base) && StartsWithLetter(base) && |base| <= MAX_PREFIX
  {
    SanitizeFragment(raw, MCP, Some(MAX_PREFIX))
  }

  function ServerName(raw: Str, used: set<Str>): (r: Str)
    ensures Norm(r) !in used
  {
    CandidatesDistinct([], ServerBase(raw), MAX_PREFIX);
    Allocate(ServerBase(raw), Candidates([], ServerBase(raw), MAX_PREFIX), used)
  }

  /** A server's name is the first free form, within 30 characters, of its fragment cut to 30, `mcp` standing in. */
  lemma ServerNameExactly(raw: Str, used: set<Str>, whole: Str)
    requires FragmentOf(raw, [109, 99, 112], whole)
    ensures FirstFreeForm(ServerName(raw, used), [], if |whole| <= 30 then whole else whole[..30], 30, used)
  {
    hide Norm, FragmentOf, FirstFreeForm;
    var base := ServerBase(raw);
    FragmentExactly(raw, MCP, Some(30), whole);
    CandidatesDistinct([], base, MAX_PREFIX);
    assert [] + base == base;
    AllocatesFirstFree([], base, MAX_PREFIX, used);
  }

  method SanitizeServerName(raw: Str, used: set<Str>) returns (name: Str, nowUsed: set<Str>)
    ensures name == ServerName(raw, used) && nowUsed == used + {Norm(name)}
  {
    var base := SanitizeFragment(raw, MCP, Some(MAX_PREFIX));
    name := Search(base, [], base, MAX_PREFIX, used);
    nowUsed := used + {Norm(name)};
  }

  lemma NumberedIsSafe(prefix: Str, name: Str, budget: nat, n: nat)
    requires Safe(prefix) && Safe(name) && StartsWithLetter(prefix + Cut(name, 1))
    ensures Safe(Numbered(prefix, name, budget, n)) && StartsWithLetter(Numbered(prefix, name, budget, n))
  {
    var cut := Cut(name, AtLeastOne(budget - |Suffix(n)|));
    assert Safe(cut);
    assert name != [] ==> cut != [] && cut[0] == name[0];
  }

  lemma NumberedFits(prefix: Str, name: Str, budget: nat, n: nat, k: nat)
    requires n < Pow10(k) && k >= 1 && k + 2 <= budget
    ensures |Numbered(prefix, name, budget, n)| <= |prefix| + budget
  {
    DigitsShort(n, k);
  }

  /** A server name always has the safe alphabet and starts with a letter, and stays within 30
      characters as long as the used names leave a suffix of 28 digits. */
  lemma ServerNameIsSafe(raw: Str, used: set<Str>)
    ensures Safe(ServerName(raw, used)) && StartsWithLetter(ServerName(raw, used))
    ensures |used| + 2 < Pow10(28) ==> |ServerName(raw, used)| <= MAX_PREFIX
  {
    var base := ServerBase(raw);
    var cand := Candidates([], base, MAX_PREFIX);
    CandidatesDistinct([], base, MAX_PREFIX);
    assert [] + Cut(base, 1) == Cut(base, 1);
    if Norm(base) in used {
      var r := FirstFree(cand, used, 2);
      NumberedIsSafe([], base, MAX_PREFIX, r);
      if |used| + 2 < Pow10(28) {
        NumberedFits([], base, MAX_PREFIX, r, 28);
      }
    }
  }

  lemma {:induction false} DigitsLong(n: nat, k: nat)
    requires n >= Pow10(k)
    ensures |Digits(n)| >= k + 1
  {
    if k > 0 {
      DigitsLong(n / 10, k - 1);
    }
  }

  lemma Pow10Step(k: nat)
    ensures Pow10(k + 1) == 10 * Pow10(k)
  {
  }

  lemma LetterAndSuffix(top: nat)
    ensures var raw := [121] + Suffix(top);
            Safe(raw) && StartsWithLetter(raw) && |raw| == |Digits(top)| + 2 && Cut(raw, 1) == [121]
  {
    hide Digits;
    var raw := [121] + Suffix(top);
    assert forall i :: 0 <= i < |raw| ==> raw[i] == 121 || raw[i] == HYPHEN || IsDigit(raw[i]);
  }

  /** A name that is its own largest numbered form within the limit. */
  lemma LongestForm(top: nat)
    requires |Digits(top)| == 28
    ensures var raw := [121] + Suffix(top);
            ServerBase(raw) == raw && Candidates([], raw, MAX_PREFIX)(top) == raw
  {
    hide Digits, Safe, StartsWithLetter, SanitizeFragment;
    LetterAndSuffix(top);
    var raw := [121] + Suffix(top);
    assert [] + [121] + Suffix(top) == raw;
  }

  /** With two fewer used names than 10^28 the limit can be broken: the bound above is the exact one. */
  lemma ServerNameLimitIsExact() returns (raw: Str, used: set<Str>)
    ensures |used| + 2 == Pow10(28)
    ensures |ServerName(raw, used)| > MAX_PREFIX
  {
    hide Pow10, Digits, Norm, ServerBase, FirstFree;
    Pow10Step(27);
    var end := Pow10(28);
    var top := end - 1;
    DigitsShort(top, 28);
    DigitsLong(top, 27);
    LongestForm(top);
    raw := [121] + Suffix(top);
    var cand := Candidates([], raw, MAX_PREFIX);
    CandidatesDistinct([], raw, MAX_PREFIX);
    used := set k: nat | 2 <= k < end :: Norm(cand(k));
    assert used == Forms(cand, end);
    FormsCount(cand, end);
    assert Norm(cand(top)) in used;
    var r := FirstFree(cand, used, 2);
    assert r >= end;
    DigitsLong(r, 28);
    assert |cand(r)| > MAX_PREFIX;
  }

  /** The names of all declared servers, in declaration order, with the names used at the end. */
  function AssignFrom(names: seq<Str>, used: set<Str>): (r: seq<Str>)
    ensures |r| == |names|
  {
    if names == [] then []
    else
      var first := ServerName(names[0], used);
      [first] + AssignFrom(names[1..], used + {Norm(first)})
  }

  ghost predicate Avoids(names: seq<Str>, used: set<Str>) {
    forall i :: 0 <= i < |names| ==> Norm(names[i]) !in used
  }

  ghost predicate PairwiseDistinct(names: seq<Str>) {
    forall i, j :: 0 <= i < j < |names| ==> Norm(names[i]) != Norm(names[j])
  }

  lemma DistinctCons(first: Str, rest: seq<Str>, used: set<Str>)
    requires Norm(first) !in used && Avoids(rest, used + {Norm(first)}) && PairwiseDistinct(rest)
    ensures Avoids([first] + rest, used) && PairwiseDistinct([first] + rest)
  {
    hide Norm;
    var all := [first] + rest;
    forall i | 1 <= i < |all| ensures Norm(all[i]) !in used && Norm(all[i]) != Norm(first) {
      assert all[i] == rest[i - 1];
    }
    forall i, j | 1 <= i < j < |all| ensures Norm(all[i]) != Norm(all[j]) {
      assert all[i] == rest[i - 1] && all[j] == rest[j - 1];
    }
  }

  /** For any declared names: the assigned names differ pairwise ignoring case and avoid the used ones. */
  lemma {:induction false} AssignedDistinct(names: seq<Str>, used: set<Str>)
    ensures Avoids(AssignFrom(names, used), used) && PairwiseDistinct(AssignFrom(names, used))
    decreases |names|
  {
    hide ServerName, Norm;
    if names != [] {
      var first := ServerName(names[0], used);
      AssignedDistinct(names[1..], used + {Norm(first)});
      DistinctCons(first, AssignFrom(names[1..], used + {Norm(first)}), used);
    }
  }

  /** For any declared names: the assigned names are safe, start with a letter and, for fewer than
      10^28 - 1 names, stay within 30 characters. */
  lemma {:induction false} AssignedSafe(names: seq<Str>, used: set<Str>, i: nat)
    requires i < |names|
    ensures var r := AssignFrom(names, used)[i];
            && Safe(r) && StartsWithLetter(r)
            && (|used| + |names| + 1 < Pow10(28) ==> |r| <= MAX_PREFIX)
    decreases |names|
  {
    hide ServerName, Norm, Pow10;
    ServerNameIsSafe(names[0], used);
    if i > 0 {
      AssignedSafe(names[1..], used + {Norm(ServerName(names[0], used))}, i - 1);
    }
  }

  /** Distinct assigned names differ in more than the case of their letters. */
  lemma AssignedDifferInLetters(names: seq<Str>, i: nat, j: nat)
    requires i < j < |names|
    ensures !SameIgnoringCase(AssignFrom(names, {})[i], AssignFrom(names, {})[j])
  {
    hide Norm;
    AssignedDistinct(names, {});
    AssignedSafe(names, {}, i);
    AssignedSafe(names, {}, j);
    SafeNamesCompare(AssignFrom(names, {})[i], AssignFrom(names, {})[j]);
  }

  /** Each name maps to what one of its declarations was assigned. */
  ghost predicate Assigned(m: map<Str, Str>, names: seq<Str>, all: seq<Str>)
    requires |all| >= |names|
  {
    && m.Keys == (set n | n in names)
    && forall n :: n in m ==> exists i :: 0 <= i < |names| && names[i] == n && m[n] == all[i]
  }

  lemma AssignedMore(m: map<Str, Str>, names: seq<Str>, all: seq<Str>, i: nat)
    requires i < |names| <= |all| && Assigned(m, names[..i], all)
    ensures Assigned(m[names[i] := all[i]], names[..i + 1], all)
  {
    var next, more := m[names[i] := all[i]], names[..i + 1];
    assert more == names[..i] + [names[i]];
    forall n | n in next ensures exists k :: 0 <= k < |more| && more[k] == n && next[n] == all[k] {
      if n == names[i] {
        assert more[i] == n;
      } else {
        var k :| 0 <= k < i && names[..i][k] == n && m[n] == all[k];
        assert more[k] == n;
      }
    }
  }

  lemma AssignedInjective(m: map<Str, Str>, names: seq<Str>, a: Str, b: Str)
    requires Assigned(m, names, AssignFrom(names, {})) && a in m && b in m && a != b
    ensures Norm(m[a]) != Norm(m[b]) && !SameIgnoringCase(m[a], m[b])
  {
    hide Norm;
    AssignedDistinct(names, {});
    var all := AssignFrom(names, {});
    var i :| 0 <= i < |names| && names[i] == a && m[a] == all[i];
    var j :| 0 <= j < |names| && names[j] == b && m[b] == all[j];
    assert i < j || j < i;
    AssignedSafe(names, {}, i);
    AssignedSafe(names, {}, j);
    SafeNamesCompare(m[a], m[b]);
  }

  /** A later declaration of the same name replaces the earlier assignment. */
  method AssignSafeServerNames(names: seq<Str>) returns (assignments: map<Str, Str>)
    ensures Assigned(assignments, names, AssignFrom(names, {}))
    ensures forall a, b :: a in assignments && b in assignments && a != b ==> Norm(assignments[a]) != Norm(assignments[b])
    ensures forall a, b :: a in assignments && b in assignments && a != b ==> !SameIgnoringCase(assignments[a], assignments[b])
  {
    hide Norm, ServerName;
    assignments := map[];
    var used: set<Str> := {};
    ghost var all := AssignFrom(names, {});
    assert names[0..] == names;
    for i := 0 to |names|
      invariant Assigned(assignments, names[..i], all)
      invariant all[i..] == AssignFrom(names[i..], used)
    {
      hide Assigned;
      AssignedMore(assignments, names, all, i);
      assert names[i..][0] == names[i] && names[i..][1..] == names[i + 1..];
      var name, nowUsed := SanitizeServerName(names[i], used);
      assert all[i] == all[i..][0] == name && all[i..][1..] == all[i + 1..];
      assignments, used := assignments[names[i] := name], nowUsed;
    }
    assert names[..|names|] == names;
    forall a, b | a in assignments && b in assignments && a != b
      ensures Norm(assignments[a]) != Norm(assignments[b]) && !SameIgnoringCase(assignments[a], assignments[b])
    {
      AssignedInjective(assignments, names, a, b);
    }
  }

  // ---------------------------------------------------------------------------
  // Tool names
  // ---------------------------------------------------------------------------

  function ToolBudget(server: Str): nat {
    AtLeastOne(MAX_TOTAL - |server| - |SEPARATOR|)
  }

  function ToolFragment(server: Str, tool: Str): (r: Str)
    ensures Safe(r) && StartsWithLetter(r) && |r| <= ToolBudget(server)
  {
    Cut(SanitizeFragment(tool, TOOL, None), ToolBudget(server))
  }

  function ToolName(server: Str, tool: Str, reserved: set<Str>): (r: Str)
    ensures Norm(r) !in reserved
  {
    var prefix, fragment := server + SEPARATOR, ToolFragment(server, tool);
    CandidatesDistinct(prefix, fragment, ToolBudget(server));
    Allocate(prefix + fragment, Candidates(prefix, fragment, ToolBudget(server)), reserved)
  }

  /** A tool's name is the first free form, within 64 characters as far as the server's name allows, of its
      fragment, `tool` standing in, behind the server's name and two underscores. */
  lemma ToolNameExactly(server: Str, tool: Str, reserved: set<Str>, whole: Str)
    requires FragmentOf(tool, [116, 111, 111, 108], whole)
    ensures var room := if |server| + 2 < 64 then 62 - |server| else 1;
            FirstFreeForm(ToolName(server, tool, reserved), server + [95, 95],
                          if |whole| <= room then whole else whole[..room], room, reserved)
  {
    hide Norm, FragmentOf, FirstFreeForm;
    FragmentExactly(tool, TOOL, None, whole);
    var prefix, fragment := server + SEPARATOR, ToolFragment(server, tool);
    CandidatesDistinct(prefix, fragment, ToolBudget(server));
    AllocatesFirstFree(prefix, fragment, ToolBudget(server), reserved);
  }

  method BuildSafeToolName(server: Str, tool: Str, reserved: set<Str>) returns (name: Str)
    ensures name == ToolName(server, tool, reserved)
  {
    var cleaned := SanitizeFragment(tool, TOOL, None);
    var maxToolChars := AtLeastOne(MAX_TOTAL - |server| - |SEPARATOR|);
    var truncated := Cut(cleaned, maxToolChars);
    var fragment := if truncated == [] then TOOL else truncated;
    name := Search(server + SEPARATOR + fragment, server + SEPARATOR, fragment, maxToolChars, reserved);
  }

  /** Either the plain name or one of its numbered forms. */
  lemma ToolNameForms(server: Str, tool: Str, reserved: set<Str>) returns (n: nat)
    ensures var prefix, fragment, name := server + SEPARATOR, ToolFragment(server, tool), ToolName(server, tool, reserved);
            (n == 0 && name == prefix + fragment) || (2 <= n <= |reserved| + 2 && name == Numbered(prefix, fragment, ToolBudget(server), n))
  {
    hide FirstFree, ToolFragment, Norm;
    var prefix, fragment := server + SEPARATOR, ToolFragment(server, tool);
    var cand := Candidates(prefix, fragment, ToolBudget(server));
    CandidatesDistinct(prefix, fragment, ToolBudget(server));
    n := if Norm(prefix + fragment) in reserved then FirstFree(cand, reserved, 2) else 0;
  }

  /** A tool name keeps its server prefix as the namespace boundary, and is safe when the server name is. */
  lemma ToolNameIsSafe(server: Str, tool: Str, reserved: set<Str>)
    ensures server + SEPARATOR <= ToolName(server, tool, reserved)
    ensures Safe(server) && StartsWithLetter(server) ==>
              Safe(ToolName(server, tool, reserved)) && StartsWithLetter(ToolName(server, tool, reserved))
  {
    hide ToolName, ToolFragment, Norm;
    var n := ToolNameForms(server, tool, reserved);
    var prefix, fragment := server + SEPARATOR, ToolFragment(server, tool);
    if Safe(server) && StartsWithLetter(server) {
      assert Safe(prefix) && prefix[0] == server[0];
      NumberedIsSafe(prefix, fragment, ToolBudget(server), n);
    }
  }

  /** A tool name is never blank. */
  lemma ToolNameNotBlank(server: Str, tool: Str, reserved: set<Str>)
    ensures Norm(ToolName(server, tool, reserved)) != []
  {
    hide ToolName, ToolFragment;
    var n := ToolNameForms(server, tool, reserved);
    var fragment, name := ToolFragment(server, tool), ToolName(server, tool, reserved);
    assert Safe(fragment) && fragment != [];
    var last := name[|name| - 1];
    assert last == fragment[|fragment| - 1] || last == Digits(n)[|Digits(n)| - 1];
    assert !IsWhite(last);
    TrimStartDone(name);
  }

  /** Under a server name of at most 30 characters a tool name stays within 64. */
  lemma ToolNameFits(server: Str, tool: Str, reserved: set<Str>)
    requires |server| <= MAX_PREFIX && |reserved| + 2 < Pow10(30)
    ensures |ToolName(server, tool, reserved)| <= MAX_TOTAL
  {
    hide ToolName, ToolFragment, Pow10, Numbered;
    var n := ToolNameForms(server, tool, reserved);
    var prefix, fragment := server + SEPARATOR, ToolFragment(server, tool);
    if n > 0 {
      NumberedFits(prefix, fragment, ToolBudget(server), n, 30);
    }
  }
}
