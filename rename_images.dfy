/** The frame-renaming script: every file of the image folder whose name
    contains `frame_<digits>_` is renamed, in sorted-name order, to its
    frame number padded to four digits plus ".png", the names the hero
    animation loads. The folder is a map from file names to their contents;
    the unordered listing the operating system returns is an input. */
module RenameImages {
  import opened Util

  const Prefix := "frame_"
  const Extension := ".png"
  const PadWidth: nat := 4
  /** Where the site serves the folder from. */
  const SequenceDir := "/sequence/"
  /** Number of frames the hero animation loads (0 to 119). */
  const FrameCount: nat := 120

  // ---------------------------------------------------------------------
  // The pattern `frame_(\d+)_`
  // ---------------------------------------------------------------------

  /** Length of the run of digits starting at `i`. */
  function DigitRun(s: string, i: nat): (n: nat)
    requires i <= |s|
    ensures i + n <= |s|
    ensures forall k :: i <= k < i + n ==> IsDigit(s[k])
    ensures i + n == |s| || !IsDigit(s[i + n])
    decreases |s| - i
  {
    if i < |s| && IsDigit(s[i]) then 1 + DigitRun(s, i + 1) else 0
  }

  /** The regular expression's own reading: "frame_", then `n >= 1`
      digits, then "_", at position `p`. */
  predicate RegexMatch(s: string, p: nat, n: nat)
  {
    && p + 6 + n < |s| && n >= 1
    && s[p..p + 6] == Prefix
    && (forall k :: p + 6 <= k < p + 6 + n ==> IsDigit(s[k]))
    && s[p + 6 + n] == '_'
  }

  /** The pattern matches at `p`: the digits after "frame_" run up to an
      underscore. */
  predicate MatchAt(s: string, p: nat)
  {
    p + 6 <= |s| && s[p..p + 6] == Prefix &&
    var n := DigitRun(s, p + 6); n > 0 && p + 6 + n < |s| && s[p + 6 + n] == '_'
  }

  lemma {:induction false} DigitRunOver(s: string, i: nat, n: nat)
    requires i + n <= |s|
    requires forall k :: i <= k < i + n ==> IsDigit(s[k])
    requires i + n == |s| || !IsDigit(s[i + n])
    ensures DigitRun(s, i) == n
    decreases n
  {
    if n > 0 {
      DigitRunOver(s, i + 1, n - 1);
    }
  }

  /** `\d+` followed by "_" can only take the whole run of digits, so the
      match at a position, and its captured group, are unique. */
  lemma MatchIsUnique(s: string, p: nat, n: nat)
    ensures RegexMatch(s, p, n) <==> p + 6 <= |s| && MatchAt(s, p) && n == DigitRun(s, p + 6)
  {
    if RegexMatch(s, p, n) {
      DigitRunOver(s, p + 6, n);
    }
  }

  /** `pattern.search` from `p`: the leftmost match position. */
  function SearchFrom(s: string, p: nat): (r: Option<nat>)
    requires p <= |s|
    ensures r.Some? ==> p <= r.value <= |s| && MatchAt(s, r.value)
    ensures r.Some? ==> forall q :: p <= q < r.value ==> !MatchAt(s, q)
    ensures r.None? ==> forall q :: p <= q <= |s| ==> !MatchAt(s, q)
    decreases |s| - p
  {
    if MatchAt(s, p) then Some(p)
    else if p == |s| then None
    else SearchFrom(s, p + 1)
  }

  function Search(s: string): Option<nat>
  {
    SearchFrom(s, 0)
  }

  /** `match.group(1)`: the digits of the match at `p`. */
  function Group(s: string, p: nat): (g: string)
    requires MatchAt(s, p)
    ensures |g| > 0 && forall k :: 0 <= k < |g| ==> IsDigit(g[k])
  {
    s[p + 6..p + 6 + DigitRun(s, p + 6)]
  }

  // ---------------------------------------------------------------------
  // The new name
  // ---------------------------------------------------------------------

  /** `padStart(width, c)` / a zero-padded format field: `c` repeated in
      front of `s` up to `width` characters. */
  function PadStart(s: string, width: nat, c: char): (r: string)
    ensures |r| == if |s| >= width then |s| else width
    ensures r[|r| - |s|..] == s
    ensures forall k :: 0 <= k < |r| - |s| ==> r[k] == c
  {
    if |s| >= width then s else seq(width - |s|, _ => c) + s
  }

  /** `f"{index:04d}.png"` for a non-negative index. */
  function FrameFileName(index: nat): string
  {
    PadStart(NatToString(index), PadWidth, '0') + Extension
  }

  /** The name a file is renamed to, or `None` when the pattern does not
      occur in it. */
  function NewName(name: string): Option<string>
  {
    match Search(name)
    case None => None
    case Some(p) => Some(FrameFileName(DigitsValue(Group(name, p))))
  }

  /** Exactly the names in which the pattern occurs somewhere are
      renamed. */
  lemma RenamedIffMatch(name: string)
    ensures NewName(name).None? <==> forall p :: 0 <= p <= |name| ==> !MatchAt(name, p)
  {
  }

  lemma {:induction false} LeadingZeros(k: nat, s: string)
    requires forall i :: 0 <= i < |s| ==> IsDigit(s[i])
    ensures var z := seq(k, _ => '0') + s;
      (forall i :: 0 <= i < |z| ==> IsDigit(z[i])) && DigitsValue(z) == DigitsValue(s)
    decreases |s|, k
  {
    var z := seq(k, _ => '0') + s;
    if s == [] {
      if k > 0 {
        LeadingZeros(k - 1, []);
        assert z[..|z| - 1] == seq(k - 1, _ => '0') + [];
      }
    } else {
      LeadingZeros(k, s[..|s| - 1]);
      assert z[..|z| - 1] == seq(k, _ => '0') + s[..|s| - 1];
    }
  }

  /** The number the new name spells out, read back from its digits. */
  function FrameIndexOf(file: string): (r: nat)
    requires |file| >= |Extension| && forall i :: 0 <= i < |file| - |Extension| ==> IsDigit(file[i])
  {
    DigitsValue(file[..|file| - |Extension|])
  }

  /** The new name is digits then ".png", at least four digits long, all of
      them kept for indices of five digits or more, and the digits read back
      as the index: leading zeros of the original are dropped and padding
      zeros added. */
  lemma FrameFileNameReadsBack(index: nat)
    ensures var f := FrameFileName(index);
      && |f| == (if |NatToString(index)| >= PadWidth then |NatToString(index)| else PadWidth) + |Extension|
      && f[|f| - |Extension|..] == Extension
      && (forall i :: 0 <= i < |f| - |Extension| ==> IsDigit(f[i]))
      && FrameIndexOf(f) == index
  {
    var d := NatToString(index);
    var f := FrameFileName(index);
    var padded := PadStart(d, PadWidth, '0');
    assert f[..|f| - |Extension|] == padded;
    NatToStringValue(index);
    if |d| < PadWidth {
      LeadingZeros(PadWidth - |d|, d);
    }
  }

  /** Distinct indices give distinct names. */
  lemma FrameFileNameInjective(a: nat, b: nat)
    requires FrameFileName(a) == FrameFileName(b)
    ensures a == b
  {
    FrameFileNameReadsBack(a);
    FrameFileNameReadsBack(b);
  }

  /** The pattern needs an "f": a name without one never matches. */
  lemma NoMatchWithoutF(s: string)
    requires forall i :: 0 <= i < |s| ==> s[i] != 'f'
    ensures forall p :: 0 <= p <= |s| ==> !MatchAt(s, p)
  {
    forall p | 0 <= p <= |s|
      ensures !MatchAt(s, p)
    {
      if p + 6 <= |s| {
        assert s[p..p + 6][0] == s[p];
        assert Prefix[0] == 'f';
      }
    }
  }

  /** A renamed file does not match the pattern again: running the script
      a second time leaves the renamed frames alone. */
  lemma FrameFileNameUnmatched(index: nat)
    ensures NewName(FrameFileName(index)).None?
  {
    var f := FrameFileName(index);
    FrameFileNameReadsBack(index);
    forall i | 0 <= i < |f|
      ensures f[i] != 'f'
    {
      if i >= |f| - |Extension| {
        assert f[i] == f[|f| - |Extension|..][i - (|f| - |Extension|)];
      }
    }
    NoMatchWithoutF(f);
    RenamedIffMatch(f);
  }

  /** A name that starts with a match is renamed after that match's
      digits. */
  lemma MatchAtStart(s: string, n: nat)
    requires 0 < n && 6 + n < |s| && s[..6] == Prefix && s[6 + n] == '_'
    requires forall k :: 6 <= k < 6 + n ==> IsDigit(s[k])
    ensures NewName(s) == Some(FrameFileName(DigitsValue(s[6..6 + n])))
  {
    DigitRunOver(s, 6, n);
    assert MatchAt(s, 0);
    assert Search(s) == Some(0);
  }

  /** Positions in a name made of a prefix, digits, "_" and a rest. */
  lemma FramePartsAt(pre: string, digits: string, rest: string)
    ensures var s := pre + digits + "_" + rest;
      && s[..|pre|] == pre && s[|pre|..|pre| + |digits|] == digits && s[|pre| + |digits|] == '_'
      && forall k :: |pre| <= k < |pre| + |digits| ==> s[k] == digits[k - |pre|]
  {
    var s := pre + digits + "_" + rest;
    assert s[|pre|..|pre| + |digits|] == digits;
  }

  /** A file named "frame_", digits, "_" and anything else is renamed after
      the number those digits spell. */
  lemma FrameNameRead(digits: string, rest: string)
    requires |digits| > 0 && forall i :: 0 <= i < |digits| ==> IsDigit(digits[i])
    ensures NewName(Prefix + digits + "_" + rest) == Some(FrameFileName(DigitsValue(digits)))
  {
    assert |Prefix| == 6;
    FramePartsAt(Prefix, digits, rest);
    MatchAtStart(Prefix + digits + "_" + rest, |digits|);
  }

  /** The file name the hero animation loads for frame `i`:
      `/sequence/` then `i` padded with zeros to four characters, ".png". */
  function HeroFrameSource(i: int): string
  {
    SequenceDir + (PadStart(IntToString(i), PadWidth, '0') + Extension)
  }

  /** Every frame the hero animation loads is produced by renaming the
      exported frame of the same number, however its number was padded. */
  lemma HeroFramesProvided(i: nat, digits: string, rest: string)
    requires i < FrameCount
    requires |digits| > 0 && forall k :: 0 <= k < |digits| ==> IsDigit(digits[k])
    requires DigitsValue(digits) == i
    ensures NewName(Prefix + digits + "_" + rest).Some?
    ensures SequenceDir + NewName(Prefix + digits + "_" + rest).value == HeroFrameSource(i)
  {
    FrameNameRead(digits, rest);
  }

  // ---------------------------------------------------------------------
  // Sorted order
  // ---------------------------------------------------------------------

  /** Python's string order: code point by code point, a prefix first. */
  predicate LexLe(a: string, b: string)
    decreases |a|
  {
    |a| == 0 || (|b| > 0 && (a[0] < b[0] || (a[0] == b[0] && LexLe(a[1..], b[1..]))))
  }

  lemma {:induction false} LexTotal(a: string, b: string)
    ensures LexLe(a, b) || LexLe(b, a)
    decreases |a|
  {
    if |a| > 0 && |b| > 0 && a[0] == b[0] {
      LexTotal(a[1..], b[1..]);
    }
  }

  predicate Ascending(s: seq<string>)
  {
    forall i :: 0 <= i && i + 1 < |s| ==> LexLe(s[i], s[i + 1])
  }

  predicate Distinct(s: seq<string>)
  {
    forall i, j :: 0 <= i < j < |s| ==> s[i] != s[j]
  }

  function Insert(x: string, s: seq<string>): (r: seq<string>)
    requires Ascending(s)
    ensures |r| == |s| + 1
    ensures forall y :: y in r <==> y == x || y in s
    ensures Ascending(r) && (r[0] == x || (s != [] && r[0] == s[0]))
    ensures Distinct(s) && x !in s ==> Distinct(r)
  {
    if s == [] then [x]
    else if LexLe(x, s[0]) then [x] + s
    else
      LexTotal(x, s[0]);
      var tail := Insert(x, s[1..]);
      assert s == [s[0]] + s[1..];
      assert Distinct(s) ==> Distinct(s[1..]) && s[0] !in s[1..];
      [s[0]] + tail
  }

  /** `sorted(...)` on a list of names. */
  function SortNames(s: seq<string>): (r: seq<string>)
    ensures |r| == |s|
    ensures forall y :: y in r <==> y in s
    ensures Ascending(r)
    ensures Distinct(s) ==> Distinct(r)
  {
    if s == [] then []
    else
      var init := s[..|s| - 1];
      assert s == init + [s[|s| - 1]];
      assert Distinct(s) ==> s[|s| - 1] !in init;
      Insert(s[|s| - 1], SortNames(init))
  }

  // ---------------------------------------------------------------------
  // The renaming loop
  // ---------------------------------------------------------------------

  /** A renaming rule: the new name of a file, or `None` to leave it. */
  type Renamer = string -> Option<string>

  /** No new name is itself renamed by the rule. */
  ghost predicate NeverChains(rule: Renamer)
  {
    forall n, m :: rule(n).Some? && rule(m).Some? ==> rule(n).value != m
  }

  /** The renames the loop performs over `names`, in order. */
  function Plan(rule: Renamer, names: seq<string>): seq<(string, string)>
  {
    if names == [] then []
    else
      var last := names[|names| - 1];
      Plan(rule, names[..|names| - 1]) + (if rule(last).Some? then [(last, rule(last).value)] else [])
  }

  /** `os.rename(src, dst)`: the contents move to `dst`, replacing whatever
      was there. */
  function Rename(files: map<string, nat>, src: string, dst: string): map<string, nat>
  {
    if src in files then (files - {src})[dst := files[src]] else files
  }

  /** The folder after the renames of `plan`, in order. */
  function Applied(files: map<string, nat>, plan: seq<(string, string)>): map<string, nat>
  {
    if plan == [] then files
    else Rename(Applied(files, plan[..|plan| - 1]), plan[|plan| - 1].0, plan[|plan| - 1].1)
  }

  /** One more name extends the plan by its rename, if any. */
  lemma PlanStep(rule: Renamer, names: seq<string>, i: nat)
    requires i < |names|
    ensures Plan(rule, names[..i + 1]) ==
      Plan(rule, names[..i]) + (if rule(names[i]).Some? then [(names[i], rule(names[i]).value)] else [])
  {
    assert names[..i + 1][..i] == names[..i];
  }

  /** One more rename is applied after the others. */
  lemma AppliedStep(files: map<string, nat>, plan: seq<(string, string)>, src: string, dst: string)
    ensures Applied(files, plan + [(src, dst)]) == Rename(Applied(files, plan), src, dst)
  {
    assert (plan + [(src, dst)])[..|plan|] == plan;
  }

  /** A new name is never the name of a matching file. */
  lemma TargetNotMatching(n: string, m: string)
    requires NewName(n).Some? && NewName(m).Some?
    ensures NewName(n).value != m
  {
    FrameFileNameUnmatched(DigitsValue(Group(n, Search(n).value)));
  }

  /** The script's rule never renames a file twice. */
  lemma NewNameNeverChains()
    ensures NeverChains(NewName)
  {
    forall n, m | NewName(n).Some? && NewName(m).Some?
      ensures NewName(n).value != m
    {
      TargetNotMatching(n, m);
    }
  }

  // Renames in general: a plan whose sources are distinct files and whose
  // new names are never sources.

  predicate SourcesDistinct(plan: seq<(string, string)>)
  {
    forall i, j :: 0 <= i < j < |plan| ==> plan[i].0 != plan[j].0
  }

  predicate NoChain(plan: seq<(string, string)>)
  {
    forall i, j :: 0 <= i < |plan| && 0 <= j < |plan| ==> plan[i].1 != plan[j].0
  }

  /** A name that no rename touches keeps its contents. */
  lemma {:induction false} ApplyKeeps(files: map<string, nat>, plan: seq<(string, string)>, n: string)
    requires n in files
    requires forall i :: 0 <= i < |plan| ==> plan[i].0 != n && plan[i].1 != n
    ensures var r := Applied(files, plan); n in r && r[n] == files[n]
  {
    if plan != [] {
      ApplyKeeps(files, plan[..|plan| - 1], n);
    }
  }

  /** Every source is gone and every new name is there. */
  lemma {:induction false} ApplyMoves(files: map<string, nat>, plan: seq<(string, string)>)
    requires SourcesDistinct(plan) && NoChain(plan)
    requires forall i :: 0 <= i < |plan| ==> plan[i].0 in files
    ensures forall i :: 0 <= i < |plan| ==> plan[i].0 !in Applied(files, plan) && plan[i].1 in Applied(files, plan)
  {
    if plan != [] {
      var init := plan[..|plan| - 1];
      var last := plan[|plan| - 1];
      ApplyMoves(files, init);
      ApplyKeeps(files, init, last.0);
    }
  }

  /** A new name that no other rename produces holds its source's
      contents. */
  lemma {:induction false} ApplyUniqueTarget(files: map<string, nat>, plan: seq<(string, string)>, i: nat)
    requires SourcesDistinct(plan) && NoChain(plan)
    requires forall k :: 0 <= k < |plan| ==> plan[k].0 in files
    requires i < |plan| && forall j :: 0 <= j < |plan| && j != i ==> plan[j].1 != plan[i].1
    ensures var r := Applied(files, plan); plan[i].1 in r && r[plan[i].1] == files[plan[i].0]
  {
    var init := plan[..|plan| - 1];
    if i == |plan| - 1 {
      ApplyKeeps(files, init, plan[i].0);
    } else {
      ApplyUniqueTarget(files, init, i);
    }
  }

  /** Each rename of the loop comes from a file of the listing and gives it
      the rule's new name. */
  lemma {:induction false} PlanSound(rule: Renamer, names: seq<string>)
    ensures forall i :: 0 <= i < |Plan(rule, names)| ==>
      Plan(rule, names)[i].0 in names && rule(Plan(rule, names)[i].0) == Some(Plan(rule, names)[i].1)
  {
    if names != [] {
      var init := names[..|names| - 1];
      var last := names[|names| - 1];
      assert names == init + [last];
      PlanSound(rule, init);
      if rule(last).Some? {
        assert Plan(rule, names) == Plan(rule, init) + [(last, rule(last).value)];
      } else {
        assert Plan(rule, names) == Plan(rule, init);
      }
    }
  }

  /** Every file of the listing the rule renames is renamed. */
  lemma {:induction false} PlanComplete(rule: Renamer, names: seq<string>, n: string)
    requires n in names && rule(n).Some?
    ensures exists i :: 0 <= i < |Plan(rule, names)| && Plan(rule, names)[i].0 == n
  {
    var init := names[..|names| - 1];
    var last := names[|names| - 1];
    assert names == init + [last];
    var plan := Plan(rule, names);
    if n == last {
      assert plan[|plan| - 1].0 == n;
    } else {
      PlanComplete(rule, init, n);
      var i :| 0 <= i < |Plan(rule, init)| && Plan(rule, init)[i].0 == n;
      assert plan[i].0 == n;
    }
  }

  /** Distinct files give distinct sources. */
  lemma {:induction false} PlanSourcesDistinct(rule: Renamer, names: seq<string>)
    requires Distinct(names)
    ensures SourcesDistinct(Plan(rule, names))
  {
    if names != [] {
      var init := names[..|names| - 1];
      var last := names[|names| - 1];
      assert names == init + [last];
      assert Distinct(init) && last !in init;
      PlanSourcesDistinct(rule, init);
      PlanSound(rule, init);
      if rule(last).Some? {
        assert Plan(rule, names) == Plan(rule, init) + [(last, rule(last).value)];
      } else {
        assert Plan(rule, names) == Plan(rule, init);
      }
    }
  }

  lemma PlanHasNoChain(rule: Renamer, names: seq<string>)
    requires NeverChains(rule)
    ensures NoChain(Plan(rule, names))
  {
    PlanSound(rule, names);
  }

  /** Every file of the listing the rule renames is gone and its new name
      is there. */
  lemma RuleMovesFiles(rule: Renamer, files: map<string, nat>, names: seq<string>, n: string)
    requires NeverChains(rule)
    requires Distinct(names) && forall k :: k in names ==> k in files
    requires n in names && rule(n).Some?
    ensures n !in Applied(files, Plan(rule, names)) && rule(n).value in Applied(files, Plan(rule, names))
  {
    var plan := Plan(rule, names);
    PlanSound(rule, names);
    PlanComplete(rule, names, n);
    PlanSourcesDistinct(rule, names);
    PlanHasNoChain(rule, names);
    ApplyMoves(files, plan);
    var i :| 0 <= i < |plan| && plan[i].0 == n;
  }

  /** A new name that only one file of the listing maps to ends up with
      that file's contents. */
  lemma RuleUniqueTarget(rule: Renamer, files: map<string, nat>, names: seq<string>, n: string)
    requires NeverChains(rule)
    requires Distinct(names) && forall k :: k in names ==> k in files
    requires n in names && rule(n).Some?
    requires forall k :: k in names && k != n ==> rule(k) != rule(n)
    ensures rule(n).value in Applied(files, Plan(rule, names))
    ensures Applied(files, Plan(rule, names))[rule(n).value] == files[n]
  {
    var plan := Plan(rule, names);
    PlanSound(rule, names);
    PlanComplete(rule, names, n);
    PlanSourcesDistinct(rule, names);
    PlanHasNoChain(rule, names);
    var i :| 0 <= i < |plan| && plan[i].0 == n;
    ApplyUniqueTarget(files, plan, i);
  }

  /** Every matching file of the listing is gone and its new name is
      there. */
  lemma MatchesRenamed(files: map<string, nat>, names: seq<string>, n: string)
    requires Distinct(names) && forall k :: k in names ==> k in files
    requires n in names && NewName(n).Some?
    ensures var r := Applied(files, Plan(NewName, names)); n !in r && NewName(n).value in r
  {
    NewNameNeverChains();
    RuleMovesFiles(NewName, files, names, n);
  }

  /** A file that does not match and is nobody's new name keeps its
      contents. */
  lemma OthersUntouched(files: map<string, nat>, names: seq<string>, n: string)
    requires n in files && NewName(n).None?
    requires forall k :: k in names ==> NewName(k) != Some(n)
    ensures var r := Applied(files, Plan(NewName, names)); n in r && r[n] == files[n]
  {
    var plan := Plan(NewName, names);
    PlanSound(NewName, names);
    ApplyKeeps(files, plan, n);
  }

  /** A new name that only one file of the listing maps to ends up with
      that file's contents. */
  lemma UniqueTargetGetsContents(files: map<string, nat>, names: seq<string>, n: string)
    requires Distinct(names) && forall k :: k in names ==> k in files
    requires n in names && NewName(n).Some?
    requires forall k :: k in names && k != n ==> NewName(k) != NewName(n)
    ensures var r := Applied(files, Plan(NewName, names)); NewName(n).value in r && r[NewName(n).value] == files[n]
  {
    NewNameNeverChains();
    RuleUniqueTarget(NewName, files, names, n);
  }

  /** When the loop reaches a matching file it is still in the folder:
      earlier renames only took earlier files and made names that never
      match. */
  lemma StillPresent(files: map<string, nat>, sorted: seq<string>, i: nat)
    requires Distinct(sorted) && i < |sorted| && sorted[i] in files && NewName(sorted[i]).Some?
    ensures sorted[i] in Applied(files, Plan(NewName, sorted[..i]))
  {
    var plan := Plan(NewName, sorted[..i]);
    PlanSound(NewName, sorted[..i]);
    forall k | 0 <= k < |plan|
      ensures plan[k].0 != sorted[i] && plan[k].1 != sorted[i]
    {
      TargetNotMatching(plan[k].0, sorted[i]);
    }
    ApplyKeeps(files, plan, sorted[i]);
  }

  /** The image folder. */
  class Folder {
    var files: map<string, nat>

    constructor(contents: map<string, nat>)
      ensures files == contents
    {
      files := contents;
    }

    /** The script: rename, in sorted order, each file of the listing that
        matches. `listing` is the directory listing, in whatever order the
        operating system gives it. */
    method RenameFrames(listing: seq<string>)
      requires Distinct(listing) && forall n :: n in listing <==> n in files
      modifies this
      ensures files == Applied(old(files), Plan(NewName, SortNames(listing)))
    {
      var sorted := SortNames(listing);
      var i := 0;
      while i < |sorted|
        invariant 0 <= i <= |sorted|
        invariant files == Applied(old(files), Plan(NewName, sorted[..i]))
      {
        var filename := sorted[i];
        var found := Search(filename);
        PlanStep(NewName, sorted, i);
        if found.Some? {
          var index := DigitsValue(Group(filename, found.value));
          var newName := FrameFileName(index);
          assert NewName(filename) == Some(newName);
          AppliedStep(old(files), Plan(NewName, sorted[..i]), filename, newName);
          StillPresent(old(files), sorted, i);
          files := (files - {filename})[newName := files[filename]];
          assert files == Rename(Applied(old(files), Plan(NewName, sorted[..i])), filename, newName);
          assert Plan(NewName, sorted[..i + 1]) == Plan(NewName, sorted[..i]) + [(filename, newName)];
        } else {
          assert NewName(filename).None?;
          assert Plan(NewName, sorted[..i + 1]) == Plan(NewName, sorted[..i]);
        }
        i := i + 1;
      }
      assert sorted[..i] == sorted;
    }
  }
}
