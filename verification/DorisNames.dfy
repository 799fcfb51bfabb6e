/** Target column names: cleaned, cut to length, and kept apart by a numeric suffix. */
module DorisNames {
  import opened Text

  const MAX_NAME := 256

  predicate Space(c: char) {
    c == ' ' || '\t' <= c <= '\r'
  }

  predicate Underscore(c: char) {
    c == '_'
  }

  predicate Word(c: char) {
    'a' <= c <= 'z' || 'A' <= c <= 'Z' || '0' <= c <= '9' || c == '_'
  }

  /** What a name may keep as it is: the pattern's class, whose white space leaves out VT. */
  predicate Plain(c: char) {
    Word(c) || c in ".+-/?@#$%^&*\",: " || ('\t' <= c <= '\r' && c as int != 11)
  }

  function DropFront(s: string, cut: char -> bool): (r: string) {
    if s != "" && cut(s[0]) then DropFront(s[1..], cut) else s
  }

  function DropBack(s: string, cut: char -> bool): (r: string) {
    if s != "" && cut(s[|s| - 1]) then DropBack(s[..|s| - 1], cut) else s
  }

  function Trim(s: string, cut: char -> bool): (r: string) {
    DropBack(DropFront(s, cut), cut)
  }

  predicate AllPlain(s: string) {
    forall k :: 0 <= k < |s| ==> Plain(s[k])
  }

  /** Each run of other characters becomes one underscore. */
  function Squeezed(s: string, under: bool): (r: string) {
    if s == "" then ""
    else if Word(s[0]) then [s[0]] + Squeezed(s[1..], false)
    else if under then Squeezed(s[1..], true)
    else "_" + Squeezed(s[1..], true)
  }

  method SqueezeName(name: string) returns (b: string)
    ensures b == Squeezed(name, false)
  {
    b := "";
    var lastUnderscore := false;
    for i := 0 to |name|
      invariant b + Squeezed(name[i..], lastUnderscore) == Squeezed(name, false)
    {
      assert name[i..][1..] == name[i + 1..];
      ghost var before, under := b, lastUnderscore;
      if Word(name[i]) {
        b := b + [name[i]];
        lastUnderscore := false;
      } else if !lastUnderscore {
        b := b + "_";
        lastUnderscore := true;
      }
      assert b + Squeezed(name[i + 1..], lastUnderscore) == before + Squeezed(name[i..], under);
    }
  }

  function Numbered(ordinal: nat): (s: string) {
    "col_" + Digits(ordinal + 1)
  }

  function OrNumbered(s: string, ordinal: nat): (r: string) {
    if s == "" then Numbered(ordinal) else s
  }

  function BaseName(name: string, ordinal: nat): (r: string) {
    var n := Trim(name, Space);
    var clean := if n != "" && |n| <= MAX_NAME && AllPlain(n) then n else Trim(Squeezed(n, false), Underscore);
    var base := OrNumbered(clean, ordinal);
    if |base| > MAX_NAME then OrNumbered(DropBack(base[..MAX_NAME], Underscore), ordinal) else base
  }

  function Max(a: int, b: int): (m: int) {
    if a < b then b else a
  }

  /** The base, cut so that the suffix fits. */
  function Stem(base: string, suffix: nat): (r: string) {
    var room := Max(MAX_NAME - |Digits(suffix)| - 1, 1);
    if |base| + 1 + |Digits(suffix)| <= MAX_NAME || |base| <= room then base
    else
      var cut := DropBack(base[..room], Underscore);
      if cut == "" then "col" else cut
  }

  /** The first candidate is the base itself, later ones carry a suffix from 2 on. */
  function Candidate(base: string, k: nat): (r: string) {
    if k < 2 then base else Stem(base, k) + "_" + Digits(k)
  }

  function LowerChar(c: char): (r: char) {
    if 'A' <= c <= 'Z' then (c as int + 32) as char else c
  }

  function Lower(s: string): (r: string)
    ensures |r| == |s|
  {
    seq(|s|, k requires 0 <= k < |s| => LowerChar(s[k]))
  }

  /** The first candidate whose lower-case form is not in use. */
  ghost predicate FirstFree(base: string, used: set<string>, name: string) {
    exists k: nat :: 1 <= k && name == Candidate(base, k) && TakenBefore(base, used, k) && Lower(name) !in used
  }

  ghost predicate TakenBefore(base: string, used: set<string>, k: nat) {
    forall j :: 1 <= j < k ==> Lower(Candidate(base, j)) in used
  }

  /** Numbered candidates of one base differ, even in lower case and cut to length. */
  lemma CandidatesDiffer(base: string, i: nat, j: nat)
    requires 2 <= i && 2 <= j && Lower(Candidate(base, i)) == Lower(Candidate(base, j))
    ensures i == j
  {
    NumberedForm(base, i);
    NumberedForm(base, j);
    SplitLast(Lower(Stem(base, i)), Digits(i), Lower(Stem(base, j)), Digits(j), '_');
    DigitsInjective(i, j);
  }

  lemma NumberedForm(base: string, i: nat)
    requires 2 <= i
    ensures Lower(Candidate(base, i)) == Lower(Stem(base, i)) + ['_'] + Digits(i)
  {
    assert Candidate(base, i) == Stem(base, i) + ("_" + Digits(i));
  }

  /** The suffix loop ends, because only finitely many names are in use. */
  method Unused(base: string, used: set<string>) returns (name: string)
    ensures FirstFree(base, used, name)
  {
    name := base;
    var suffix := 2;
    ghost var tried: set<string> := {};
    while Lower(name) in used
      invariant 2 <= suffix && name == Candidate(base, suffix - 1) && TakenBefore(base, used, suffix - 1)
      invariant tried <= used
      invariant forall t :: t in tried ==> exists j :: 2 <= j < suffix - 1 && t == Lower(Candidate(base, j))
      decreases |used - tried|, if suffix == 2 then 1 else 0
    {
      if suffix > 2 {
        var key := Lower(name);
        if key in tried {
          var j :| 2 <= j < suffix - 1 && key == Lower(Candidate(base, j));
          CandidatesDiffer(base, j, suffix - 1);
        }
        Shrinks(used, tried, key);
        tried := tried + {key};
      }
      name := Candidate(base, suffix);
      suffix := suffix + 1;
    }
  }

  lemma Shrinks(used: set<string>, tried: set<string>, key: string)
    requires key in used && key !in tried
    ensures |used - (tried + {key})| < |used - tried|
  {
    assert used - tried == (used - (tried + {key})) + {key};
  }

  /** The whole cleaning, in the order of the statements. */
  method TargetName(name: string, ordinal: nat, used: set<string>) returns (target: string)
    ensures FirstFree(BaseName(name, ordinal), used, target)
  {
    var trimmed := Trim(name, Space);
    var base := trimmed;
    if trimmed == "" || |trimmed| > MAX_NAME || !AllPlain(trimmed) {
      base := SqueezeName(trimmed);
      base := Trim(base, Underscore);
    }
    if base == "" {
      base := Numbered(ordinal);
    }
    if |base| > MAX_NAME {
      base := DropBack(base[..MAX_NAME], Underscore);
      if base == "" {
        base := Numbered(ordinal);
      }
    }
    target := Unused(base, used);
  }

  // ---- A target name needs no trimming ----

  predicate Tight(s: string) {
    s != "" && !Space(s[0]) && !Space(s[|s| - 1])
  }

  lemma {:induction false} DropFrontEnds(s: string, cut: char -> bool)
    ensures var r := DropFront(s, cut); |r| <= |s| && r == s[|s| - |r|..] && (r != "" ==> !cut(r[0]))
  {
    if s != "" && cut(s[0]) {
      DropFrontEnds(s[1..], cut);
    }
  }

  lemma {:induction false} DropBackEnds(s: string, cut: char -> bool)
    ensures var r := DropBack(s, cut); r <= s && (r != "" ==> !cut(r[|r| - 1]))
  {
    if s != "" && cut(s[|s| - 1]) {
      DropBackEnds(s[..|s| - 1], cut);
    }
  }

  lemma TrimEnds(s: string, cut: char -> bool)
    ensures var r := Trim(s, cut); r != "" ==> !cut(r[0]) && !cut(r[|r| - 1])
    ensures forall k :: 0 <= k < |Trim(s, cut)| ==> Trim(s, cut)[k] in s
  {
    var f := DropFront(s, cut);
    DropFrontEnds(s, cut);
    DropBackEnds(f, cut);
  }

  lemma {:induction false} SqueezedIsWord(s: string, under: bool)
    ensures forall k :: 0 <= k < |Squeezed(s, under)| ==> Word(Squeezed(s, under)[k])
  {
    if s != "" {
      SqueezedIsWord(s[1..], !Word(s[0]));
    }
  }

  /** The character classes in ASCII: white space, what a cleaned name may contain, what a name may keep
      besides, and the lower-case form. */
  lemma CharacterClasses(c: char)
    ensures var n := c as int;
      && (Space(c) <==> n == 32 || 9 <= n <= 13)
      && (Word(c) <==> 48 <= n <= 57 || 65 <= n <= 90 || n == 95 || 97 <= n <= 122)
      && (Plain(c) <==> Word(c) || n in {9, 10, 12, 13, 32, 34, 35, 36, 37, 38, 42, 43, 44, 45, 46, 47, 58, 63, 64, 94})
      && LowerChar(c) as int == if 65 <= n <= 90 then n + 32 else n
  {
  }

  /** The stem of a base that is too long: as much as leaves room, without underscores at the end; and "col"
      when nothing else is left. */
  predicate CutTo(base: string, room: nat, stem: string)
    requires room <= |base|
  {
    if forall i :: 0 <= i < room ==> base[i] == '_' then stem == "col"
    else 0 < |stem| <= room && stem == base[..|stem|] && stem[|stem| - 1] != '_' && forall i :: |stem| <= i < room ==> base[i] == '_'
  }

  /** A suffix is put behind the whole base if that fits, and else behind its stem. */
  lemma SuffixedForm(base: string, k: nat)
    requires 2 <= k && |Digits(k)| <= 252
    ensures var room := 255 - |Digits(k)|;
      && Candidate(base, k) == Stem(base, k) + "_" + Digits(k)
      && if |base| <= room then Stem(base, k) == base else CutTo(base, room, Stem(base, k))
  {
    var room := 255 - |Digits(k)|;
    if room < |base| {
      DropBackIs(base[..room]);
      var cut := DropBack(base[..room], Underscore);
      assert cut == base[..|cut|] && forall i :: 0 <= i < room ==> base[..room][i] == base[i];
      assert cut != "" ==> base[|cut| - 1] == cut[|cut| - 1];
    }
  }

  lemma {:induction false} DropBackIs(s: string)
    ensures var d := DropBack(s, Underscore);
      && d <= s && (d != "" ==> d[|d| - 1] != '_') && forall i :: |d| <= i < |s| ==> s[i] == '_'
  {
    if s != "" && Underscore(s[|s| - 1]) {
      DropBackIs(s[..|s| - 1]);
    }
  }

  lemma {:induction false} WordsStay(a: string, rest: string, under: bool)
    requires forall k :: 0 <= k < |a| ==> Word(a[k])
    ensures Squeezed(a + rest, under) == a + Squeezed(rest, under && a == "")
  {
    if a == "" {
      assert a + rest == rest;
    } else {
      assert (a + rest)[1..] == a[1..] + rest;
      WordsStay(a[1..], rest, false);
    }
  }

  lemma {:induction false} RunGoes(x: string, rest: string)
    requires forall k :: 0 <= k < |x| ==> !Word(x[k])
    ensures Squeezed(x + rest, true) == Squeezed(rest, true)
  {
    if x == "" {
      assert x + rest == rest;
    } else {
      assert (x + rest)[1..] == x[1..] + rest;
      RunGoes(x[1..], rest);
    }
  }

  lemma RunSqueezes(x: string, rest: string)
    requires x != "" && forall k :: 0 <= k < |x| ==> !Word(x[k])
    requires rest == "" || Word(rest[0])
    ensures Squeezed(x + rest, false) == "_" + Squeezed(rest, false)
  {
    var s := x + rest;
    assert s[0] == x[0] && s[1..] == x[1..] + rest;
    RunGoes(x[1..], rest);
  }

  /** Letters, digits and underscores stay, and each run of other characters becomes one underscore. */
  lemma RunBecomesUnderscore(a: string, x: string, rest: string)
    requires forall k :: 0 <= k < |a| ==> Word(a[k])
    requires x != "" && forall k :: 0 <= k < |x| ==> !Word(x[k])
    requires rest == "" || Word(rest[0])
    ensures Squeezed(a + (x + rest), false) == a + ("_" + Squeezed(rest, false))
  {
    WordsStay(a, x + rest, false);
    RunSqueezes(x, rest);
  }

  /** A trimmed name of allowed characters that fits is its own base, and it is the target when it is free. */
  lemma PlainNameKept(name: string, ordinal: nat, used: set<string>, target: string)
    requires Tight(name) && |name| <= 256 && forall k :: 0 <= k < |name| ==> Plain(name[k])
    requires FirstFree(BaseName(name, ordinal), used, target)
    ensures BaseName(name, ordinal) == name && (Lower(name) !in used ==> target == name)
  {
    TightTrims(name);
    var k: nat :| 1 <= k && target == Candidate(name, k) && TakenBefore(name, used, k) && Lower(target) !in used;
    assert k > 1 ==> Lower(Candidate(name, 1)) in used;
  }

  lemma TightTrims(s: string)
    requires Tight(s)
    ensures Trim(s, Space) == s
  {
  }

  /** A column without a name is numbered by its position. */
  lemma EmptyNameIsNumbered(ordinal: nat)
    requires |Digits(ordinal + 1)| <= 252
    ensures BaseName("", ordinal) == "col_" + Digits(ordinal + 1)
  {
  }

  /** Target names fit Doris's limit, as long as the suffix has no more than 252 digits. */
  lemma CandidateFits(name: string, ordinal: nat, k: nat)
    requires |Digits(ordinal + 1)| <= 252 && |Digits(k)| <= 252
    ensures |Candidate(BaseName(name, ordinal), k)| <= 256
  {
    BaseFits(name, ordinal);
    var base := BaseName(name, ordinal);
    if k >= 2 && |base| + 1 + |Digits(k)| > 256 {
      DropBackLength(base[..Max(256 - |Digits(k)| - 1, 1)]);
    }
  }

  lemma BaseFits(name: string, ordinal: nat)
    requires |Digits(ordinal + 1)| <= 252
    ensures |BaseName(name, ordinal)| <= 256
  {
    var n := Trim(name, Space);
    var clean := if n != "" && |n| <= MAX_NAME && AllPlain(n) then n else Trim(Squeezed(n, false), Underscore);
    var base := OrNumbered(clean, ordinal);
    if |base| > MAX_NAME {
      DropBackLength(base[..MAX_NAME]);
    }
  }

  lemma {:induction false} DropBackLength(s: string)
    ensures |DropBack(s, Underscore)| <= |s|
  {
    if s != "" && Underscore(s[|s| - 1]) {
      DropBackLength(s[..|s| - 1]);
    }
  }

  lemma NumberedIsTight(ordinal: nat)
    ensures Tight(Numbered(ordinal))
  {
    var d := Digits(ordinal + 1);
    assert Numbered(ordinal)[|Numbered(ordinal)| - 1] == d[|d| - 1];
  }

  lemma CleanIsTight(name: string, ordinal: nat)
    ensures var n := Trim(name, Space);
      var clean := if n != "" && |n| <= MAX_NAME && AllPlain(n) then n else Trim(Squeezed(n, false), Underscore);
      && Tight(OrNumbered(clean, ordinal))
      && (|clean| > MAX_NAME ==> forall k :: 0 <= k < |clean| ==> Word(clean[k]))
  {
    var n := Trim(name, Space);
    TrimEnds(name, Space);
    NumberedIsTight(ordinal);
    SqueezedIsWord(n, false);
    TrimEnds(Squeezed(n, false), Underscore);
    var w := Trim(Squeezed(n, false), Underscore);
  }

  lemma BaseIsTight(name: string, ordinal: nat)
    ensures Tight(BaseName(name, ordinal))
  {
    var n := Trim(name, Space);
    var clean := if n != "" && |n| <= MAX_NAME && AllPlain(n) then n else Trim(Squeezed(n, false), Underscore);
    var base := OrNumbered(clean, ordinal);
    CleanIsTight(name, ordinal);
    NumberedIsTight(ordinal);
    if |base| > MAX_NAME {
      var cut := DropBack(base[..MAX_NAME], Underscore);
      DropBackEnds(base[..MAX_NAME], Underscore);
      assert forall k :: 0 <= k < |base| ==> Word(base[k]);
      assert forall k :: 0 <= k < |cut| ==> cut[k] == base[k];
    }
  }

  lemma CandidateIsTight(base: string, k: nat)
    requires Tight(base)
    ensures Tight(Candidate(base, k))
  {
    if k >= 2 {
      var room := Max(MAX_NAME - |Digits(k)| - 1, 1);
      var c, d := Candidate(base, k), Digits(k);
      if room < |base| {
        DropBackEnds(base[..room], Underscore);
      }
      assert c[|c| - 1] == d[|d| - 1];
    }
  }

  /** Trimming a target name, as every comparison does, changes nothing. */
  lemma TargetIsTrimmed(name: string, ordinal: nat, used: set<string>, target: string)
    requires FirstFree(BaseName(name, ordinal), used, target)
    ensures Trim(target, Space) == target && target != ""
  {
    var k: nat :| 1 <= k && target == Candidate(BaseName(name, ordinal), k) && TakenBefore(BaseName(name, ordinal), used, k) && Lower(target) !in used;
    BaseIsTight(name, ordinal);
    CandidateIsTight(BaseName(name, ordinal), k);
  }

  // ---- All the columns of a table ----

  function LowerNames(targets: seq<string>): (used: set<string>) {
    set k | 0 <= k < |targets| :: Lower(targets[k])
  }

  /** Each name in turn gets the first free candidate of its own base. */
  ghost predicate Assigned(names: seq<string>, targets: seq<string>) {
    && |targets| == |names|
    && forall k :: 0 <= k < |targets| ==> FirstFree(BaseName(names[k], k), LowerNames(targets[..k]), targets[k])
  }

  /** Hence no two target names agree, even case-insensitively, whatever the source names. */
  lemma AssignedDiffer(names: seq<string>, targets: seq<string>, i: nat, j: nat)
    requires Assigned(names, targets) && i < j < |targets|
    ensures Lower(targets[i]) != Lower(targets[j])
  {
    assert targets[..j][i] == targets[i];
    assert Lower(targets[..j][i]) in LowerNames(targets[..j]);
  }

  lemma OneMoreName(names: seq<string>, targets: seq<string>, name: string, target: string)
    requires Assigned(names, targets) && FirstFree(BaseName(name, |names|), LowerNames(targets), target)
    ensures Assigned(names + [name], targets + [target])
    ensures LowerNames(targets + [target]) == LowerNames(targets) + {Lower(target)}
  {
    hide BaseName, FirstFree;
    var ts := targets + [target];
    assert ts[..|targets|] == targets;
    forall k | 0 <= k < |ts| ensures FirstFree(BaseName((names + [name])[k], k), LowerNames(ts[..k]), ts[k]) {
      if k < |targets| {
        assert ts[..k] == targets[..k];
      }
    }
    assert ts[|targets|] == target && forall k :: 0 <= k < |targets| ==> ts[k] == targets[k];
  }
}
