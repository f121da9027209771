/** The file picker as a whole: browsing a directory when the needle names one, searching otherwise. */
module FilePicker {
  import opened Text
  import opened Wrappers
  import opened FilePrompt

  function ForwardSlashes(s: string): (r: string)
    ensures |r| == |s|
  {
    seq(|s|, i requires 0 <= i < |s| => if s[i] == '\\' then '/' else s[i])
  }

  /** The part of a needle up to its last slash; what follows is the name to look for. */
  function Directory(needle: string): (r: string)
    ensures r <= needle
  {
    if needle == "" || needle[|needle| - 1] == '/' then needle else Directory(needle[..|needle| - 1])
  }

  function NameFilter(needle: string): string {
    needle[|Directory(needle)|..]
  }

  lemma {:induction false} DirectoryEnds(needle: string)
    ensures Directory(needle) != "" ==> Directory(needle)[|Directory(needle)| - 1] == '/'
    ensures Lacks(NameFilter(needle), '/')
  {
    if needle != "" && needle[|needle| - 1] != '/' {
      var front := needle[..|needle| - 1];
      DirectoryEnds(front);
      assert NameFilter(needle) == NameFilter(front) + [needle[|needle| - 1]];
    }
  }

  /** What an entry contributes to the listing of a directory: itself, or its part up to the next slash. */
  function Child(entry: string, directory: string): Option<string> {
    var lower := AsciiLower(entry);
    if !(AsciiLower(directory) <= lower) || |entry| == |directory| then None
    else
      var slash := FirstIndex(lower[|directory|..], "/");
      Some(if slash.Some? then entry[..|directory| + slash.value + 1] else entry)
  }

  /** One step below the directory, whatever the case: the entry, cut after its first slash from there on. */
  ghost predicate StepBelow(entry: string, directory: string, child: string) {
    && AsciiLower(directory) <= AsciiLower(entry) && |directory| < |child| && child <= entry
    && (forall i :: |directory| <= i < |child| - 1 ==> child[i] != '/')
    && (child[|child| - 1] == '/' || child == entry)
  }

  lemma {:induction false} FirstIndexIsFirst(s: string, c: char)
    ensures FirstIndex(s, [c]).None? <==> Lacks(s, c)
    ensures FirstIndex(s, [c]).Some? ==>
              s[FirstIndex(s, [c]).value] == c && forall i :: 0 <= i < FirstIndex(s, [c]).value ==> s[i] != c
  {
    if s != "" {
      FirstIndexIsFirst(s[1..], c);
      assert [c] <= s <==> s[0] == c;
      assert forall i :: 1 <= i < |s| ==> s[i] == s[1..][i - 1];
    }
  }

  /** Where the first slash below the directory stands, in the entry itself. */
  lemma SlashBelow(entry: string, directory: string)
    requires |directory| <= |entry|
    ensures var d, slash := |directory|, FirstIndex(AsciiLower(entry)[|directory|..], "/");
            && (slash.None? ==> forall i :: d <= i < |entry| ==> entry[i] != '/')
            && (slash.Some? ==> d + slash.value < |entry| && entry[d + slash.value] == '/' &&
                                forall i :: d <= i < d + slash.value ==> entry[i] != '/')
  {
    var d, rest := |directory|, AsciiLower(entry)[|directory|..];
    FirstIndexIsFirst(rest, '/');
    assert forall i :: d <= i < |entry| ==> (entry[i] == '/' <==> rest[i - d] == '/');
  }

  lemma ChildIff(entry: string, directory: string, child: string)
    ensures Child(entry, directory) == Some(child) <==> StepBelow(entry, directory, child)
  {
    var d := |directory|;
    if AsciiLower(directory) <= AsciiLower(entry) && |entry| != d {
      SlashBelow(entry, directory);
      hide AsciiLower, FirstIndex;
      var slash := FirstIndex(AsciiLower(entry)[d..], "/");
      if StepBelow(entry, directory, child) {
        var last := |child| - 1;
        assert child == entry[..|child|];
        assert forall i :: d <= i < last ==> entry[i] == child[i];
        assert entry[last] == child[last];
        if child[last] != '/' {
          assert child == entry;
        }
      }
    }
  }

  predicate Passes(child: string, directory: string, filterLower: string)
    requires |directory| <= |child|
  {
    filterLower == "" || Contains(AsciiLower(child[|directory|..]), filterLower)
  }

  /** A child of the directory among these entries whose name contains the filter, whatever the case. */
  ghost predicate Listed(entries: seq<string>, directory: string, nameFilter: string, child: string) {
    && |directory| <= |child| && Within(AsciiLower(nameFilter), AsciiLower(child[|directory|..]))
    && exists i :: 0 <= i < |entries| && StepBelow(entries[i], directory, child)
  }

  ghost predicate Ascending(paths: seq<string>) {
    forall i, j :: 0 <= i < j < |paths| ==> PathLeq(paths[i], paths[j]) && paths[i] != paths[j]
  }

  /** The ordered set, read out in order. */
  method InOrder(paths: set<string>) returns (out: seq<string>)
    ensures Ascending(out) && |out| == |paths| && forall path :: path in out <==> path in paths
  {
    hide PathLeq;
    out := [];
    var left := paths;
    while left != {}
      invariant left <= paths && |out| + |left| == |paths|
      invariant Ascending(out) && forall path :: path in paths <==> path in out || path in left
      invariant forall path, other :: path in out && other in left ==> PathLeq(path, other) && path != other
      decreases |left|
    {
      var least := Least(left);
      out := out + [least];
      left := left - {least};
    }
  }

  method Least(paths: set<string>) returns (least: string)
    requires paths != {}
    ensures least in paths && forall path :: path in paths ==> PathLeq(least, path)
  {
    hide PathLeq;
    least :| least in paths;
    PathOrder(least, least, least);
    var left := paths - {least};
    while left != {}
      invariant left <= paths && least in paths
      invariant forall path :: path in paths && path !in left ==> PathLeq(least, path)
      decreases |left|
    {
      var path :| path in left;
      left := left - {path};
      PathOrder(least, path, path);
      if !PathLeq(least, path) {
        forall other | other in paths && other !in left ensures PathLeq(path, other) {
          PathOrder(path, least, other);
          PathOrder(path, path, path);
        }
        least := path;
      }
    }
  }

  /** The listing of a directory: every child whose name passes the filter, once, in order. */
  method DirectoryFilteredChildren(entries: seq<string>, directory: string, nameFilter: string)
    returns (children: seq<string>)
    ensures Ascending(children)
    ensures forall child :: child in children <==> Listed(entries, directory, nameFilter, child)
  {
    hide AsciiLower, Child, StepBelow, Within, Contains;
    var filterLower := AsciiLower(nameFilter);
    var found: set<string> := {};
    for i := 0 to |entries|
      invariant forall child :: child in found <==> Listed(entries[..i], directory, nameFilter, child)
    {
      ListedStep(entries, i, directory, nameFilter);
      var child := Child(entries[i], directory);
      if child.None? {
        continue;
      }
      ChildIff(entries[i], directory, child.value);
      StepIsLonger(entries[i], directory, child.value);
      if !Passes(child.value, directory, filterLower) {
        continue;
      }
      found := found + {child.value};
    }
    assert entries[..|entries|] == entries;
    children := InOrder(found);
  }

  lemma StepIsLonger(entry: string, directory: string, child: string)
    ensures StepBelow(entry, directory, child) ==> |directory| < |child|
  {
  }

  lemma PassesIff(child: string, directory: string, nameFilter: string)
    requires |directory| <= |child|
    ensures Passes(child, directory, AsciiLower(nameFilter)) <==>
            Within(AsciiLower(nameFilter), AsciiLower(child[|directory|..]))
  {
    var name := AsciiLower(child[|directory|..]);
    ContainsIff(name, AsciiLower(nameFilter));
    assert name[0..0] == "";
    hide Contains, AsciiLower;
  }

  /** One more entry adds its child, if that passes. */
  lemma ListedStep(entries: seq<string>, i: nat, directory: string, nameFilter: string)
    requires i < |entries|
    ensures forall child :: Listed(entries[..i + 1], directory, nameFilter, child) <==>
              Listed(entries[..i], directory, nameFilter, child) ||
              (Child(entries[i], directory) == Some(child) && |directory| <= |child| &&
               Passes(child, directory, AsciiLower(nameFilter)))
  {
    hide AsciiLower, Child, StepBelow, Within, Passes;
    var before, after := entries[..i], entries[..i + 1];
    assert forall k :: 0 <= k < |after| ==> after[k] == if k < i then before[k] else entries[i];
    forall child
      ensures Listed(after, directory, nameFilter, child) <==>
              Listed(before, directory, nameFilter, child) ||
              (Child(entries[i], directory) == Some(child) && |directory| <= |child| &&
               Passes(child, directory, AsciiLower(nameFilter)))
    {
      ChildIff(entries[i], directory, child);
      if |directory| <= |child| {
        PassesIff(child, directory, nameFilter);
        if k :| 0 <= k < i && StepBelow(before[k], directory, child) {
          assert StepBelow(after[k], directory, child);
        }
        if StepBelow(entries[i], directory, child) {
          assert StepBelow(after[i], directory, child);
        }
      }
    }
  }

  /** What is offered for a prefix as typed, and the number said to exist: with a slash of either kind the
      matching children of that directory and the number of all its children, otherwise the best hundred
      matches and the number of all entries. */
  method FilePromptMatchesWithTotal(entries: seq<string>, prefix: string, fileName: string -> Option<string>)
    returns (matches: seq<string>, total: nat)
    ensures var needle := ForwardSlashes(Trim(prefix));
            if Lacks(needle, '/') then
              matches == Paths(Best(entries, AsciiLower(Trim(prefix)), fileName)) && total == |entries|
            else
              && Ascending(matches) && |matches| <= total
              && (forall path :: path in matches <==> Listed(entries, Directory(needle), NameFilter(needle), path))
              && exists all: seq<string> :: Ascending(all) && |all| == total &&
                   forall path :: path in all <==> Listed(entries, Directory(needle), "", path)
  {
    hide AsciiLower, Trim, Best, Directory, Listed, Ascending, Lacks;
    var needle := Trim(prefix);
    SlashIff(needle);
    if exists i :: 0 <= i < |needle| && (needle[i] == '/' || needle[i] == '\\') {
      var normalized := ForwardSlashes(needle);
      var directory, nameFilter := Directory(normalized), NameFilter(normalized);
      var all := DirectoryFilteredChildren(entries, directory, "");
      matches := DirectoryFilteredChildren(entries, directory, nameFilter);
      total := |all|;
      Narrower(entries, directory, nameFilter, matches, all);
    } else {
      matches, total := FilePromptMatches(entries, needle, fileName);
    }
  }

  lemma SlashIff(needle: string)
    ensures Lacks(ForwardSlashes(needle), '/') <==> forall i :: 0 <= i < |needle| ==> needle[i] != '/' && needle[i] != '\\'
  {
    var r := ForwardSlashes(needle);
    assert forall i :: 0 <= i < |needle| ==> (r[i] == '/' <==> needle[i] == '/' || needle[i] == '\\');
  }

  /** A filter only takes away. */
  lemma Narrower(entries: seq<string>, directory: string, nameFilter: string, matches: seq<string>, all: seq<string>)
    requires Ascending(matches) && Ascending(all)
    requires forall path :: path in matches <==> Listed(entries, directory, nameFilter, path)
    requires forall path :: path in all <==> Listed(entries, directory, "", path)
    ensures |matches| <= |all|
  {
    hide AsciiLower, StepBelow, Within, PathLeq;
    forall path | path in matches ensures path in all {
      EmptyWithin(AsciiLower(path[|directory|..]));
    }
    DistinctSize(matches);
    DistinctSize(all);
    var some, every := set path | path in matches, set path | path in all;
    assert every == some + (every - some);
  }

  lemma EmptyWithin(s: string)
    ensures AsciiLower("") == "" && Within("", s)
  {
    assert s[0..0] == "";
  }

  lemma {:induction false} DistinctSize(paths: seq<string>)
    requires Ascending(paths)
    ensures |set path | path in paths| == |paths|
  {
    hide PathLeq;
    if paths != [] {
      var front, last := paths[..|paths| - 1], paths[|paths| - 1];
      assert Ascending(front);
      DistinctSize(front);
      assert (set path | path in paths) == (set path | path in front) + {last};
      assert last !in front;
    }
  }
}
