/** The files of an archive.  A name that is taken gets a counter, but the counter is kept under the new name, so a
    third file of one name takes the place of the second (internal/session/archive.go:98-125, 185-205). */
module ArchiveFiles {
  import opened Basics

  // ----- names -----

  /** What stands from the last dot on, if no slash stands behind it. */
  function Extension(name: string): (ext: string)
    ensures |ext| <= |name| && name[|name| - |ext|..] == ext
  {
    if name == "" then ""
    else
      var last := |name| - 1;
      if name[last] == '/' then ""
      else if name[last] == '.' then name[last..]
      else
        var ext := Extension(name[..last]);
        if ext == "" then ""
        else
          assert name[|name| - (|ext| + 1)..] == name[..last][last - |ext|..] + [name[last]];
          ext + [name[last]]
  }

  function Digits(n: nat): string { (if n < 10 then "" else Digits(n / 10)) + ['0' + (n % 10) as char] }

  /** The name with a number before its extension. */
  function Numbered(name: string, n: nat): string {
    name[..|name| - |Extension(name)|] + "-" + Digits(n) + Extension(name)
  }

  function Times(names: seq<string>, name: string): nat {
    if names == [] then 0 else Times(names[..|names| - 1], name) + if names[|names| - 1] == name then 1 else 0
  }

  function NameFor(taken: seq<string>, name: string): string {
    var n := Times(taken, name);
    if n == 0 then name else Numbered(name, n + 1)
  }

  /** The names that files get which are asked for in turn. */
  function Names(asked: seq<string>): (names: seq<string>)
    ensures |names| == |asked|
  {
    if asked == [] then []
    else
      var before := Names(asked[..|asked| - 1]);
      before + [NameFor(before, asked[|asked| - 1])]
  }

  // ----- the builder -----

  datatype File = File(name: string, data: string)

  function FileNames(files: seq<File>): seq<string> { seq(|files|, i requires 0 <= i < |files| => files[i].name) }

  class ArchiveBuilder {
    var files: seq<File>
    var used: map<string, nat>

    /** Each name is counted as often as it was given. */
    ghost predicate Valid()
      reads this
    {
      forall name :: (if name in used then used[name] else 0) == Times(FileNames(files), name)
    }

    constructor ()
      ensures Valid() && files == []
    {
      files, used := [], map[];
    }

    method Add(asked: string, data: string) returns (name: string)
      requires Valid()
      modifies this
      ensures Valid() && name == NameFor(old(FileNames(files)), asked) && files == old(files) + [File(name, data)]
    {
      hide Numbered, Extension;
      ghost var before := FileNames(files);
      name := asked;
      var n := if name in used then used[name] else 0;
      if n > 0 { name := Numbered(asked, n + 1); }
      used := used[name := (if name in used then used[name] else 0) + 1];
      files := files + [File(name, data)];
      assert FileNames(files) == before + [name];
      forall other ensures Times(before + [name], other) == Times(before, other) + if name == other then 1 else 0 {
        TimesNext(before, name, other);
      }
    }
  }

  lemma {:induction false} TimesNext(names: seq<string>, name: string, other: string)
    ensures Times(names + [name], other) == Times(names, other) + if name == other then 1 else 0
  {
    assert (names + [name])[..|names|] == names;
  }

  // ----- when the names are distinct -----

  predicate Plain(ch: char) { ch != '.' && ch != '/' }

  lemma {:induction false} ExtensionNext(name: string, ch: char)
    ensures Extension(name + [ch]) ==
      if ch == '/' then "" else if ch == '.' then "." else if Extension(name) == "" then "" else Extension(name) + [ch]
  {
    var all := name + [ch];
    assert all[..|all| - 1] == name && all[|all| - 1] == ch && all[|all| - 1..] == [ch];
  }

  lemma {:induction false} OneMore(a: string, b: string)
    requires b != ""
    ensures a + b == (a + b[..|b| - 1]) + [b[|b| - 1]] && b == b[..|b| - 1] + [b[|b| - 1]]
  {}

  lemma {:induction false} ExtensionKept(stem: string, ext: string)
    requires ext != "" && ext[0] == '.' && forall i :: 1 <= i < |ext| ==> Plain(ext[i])
    ensures Extension(stem + ext) == ext
    decreases |ext|
  {
    hide Extension;
    var less, last := ext[..|ext| - 1], ext[|ext| - 1];
    OneMore(stem, ext);
    ExtensionNext(stem + less, last);
    if |ext| > 1 {
      ExtensionKept(stem, less);
    } else {
      assert ext == ".";
    }
  }

  lemma {:induction false} ExtensionShape(name: string)
    ensures var ext := Extension(name); ext != "" ==> ext[0] == '.' && forall i :: 1 <= i < |ext| ==> Plain(ext[i])
  {
    if name != "" && Plain(name[|name| - 1]) { ExtensionShape(name[..|name| - 1]); }
  }

  /** Without an extension there is none behind plain characters either. */
  lemma {:induction false} NoExtension(name: string, more: string)
    requires Extension(name) == "" && forall i :: 0 <= i < |more| ==> Plain(more[i])
    ensures Extension(name + more) == ""
    decreases |more|
  {
    hide Extension;
    if more == "" {
      assert name + more == name;
    } else {
      OneMore(name, more);
      NoExtension(name, more[..|more| - 1]);
      ExtensionNext(name + more[..|more| - 1], more[|more| - 1]);
    }
  }

  const SECOND := "-2"

  function Second(name: string): string { Numbered(name, 2) }

  lemma {:induction false} SecondIs(name: string)
    ensures Second(name) == name[..|name| - |Extension(name)|] + SECOND + Extension(name)
  {
    assert Digits(2) == "2";
    assert "-" + "2" == SECOND;
  }

  lemma {:induction false} SameExtension(name: string)
    ensures Extension(Second(name)) == Extension(name)
  {
    SecondIs(name);
    ExtensionShape(name);
    var ext := Extension(name);
    if ext == "" {
      assert name[..|name| - 0] == name && name + SECOND + "" == name + SECOND;
      NoExtension(name, SECOND);
    } else {
      ExtensionKept(name[..|name| - |ext|] + SECOND, ext);
    }
  }

  /** A second name tells which name it is the second of. */
  lemma {:induction false} SecondTells(a: string, b: string)
    requires Second(a) == Second(b)
    ensures a == b
  {
    SameExtension(a);
    SameExtension(b);
    SecondIs(a);
    SecondIs(b);
    var ext := Extension(a);
    hide *;
    var x, y := a[..|a| - |ext|], b[..|b| - |ext|];
    assert |x + SECOND + ext| == |y + SECOND + ext|;
    assert (x + SECOND + ext)[..|x|] == x && (y + SECOND + ext)[..|y|] == y;
    assert a == x + ext && b == y + ext;
  }

  /** No file is asked for under the name that a second file of some name gets. */
  ghost predicate NoClash(asked: seq<string>) {
    forall i, j :: 0 <= i < |asked| && 0 <= j < |asked| ==> asked[i] != Second(asked[j])
  }

  ghost predicate Distinct(names: seq<string>) { forall i, j :: 0 <= i < j < |names| ==> names[i] != names[j] }

  ghost predicate NamedSo(asked: seq<string>, names: seq<string>) {
    && |names| == |asked|
    && forall k :: 0 <= k < |asked| ==> names[k] == if asked[k] in asked[..k] then Second(asked[k]) else asked[k]
  }

  /** The name is not what a second file of any of these gets. */
  ghost predicate SecondOfNone(asked: seq<string>, name: string) { forall i :: 0 <= i < |asked| ==> name != Second(asked[i]) }

  lemma {:induction false} NamedBefore(asked: seq<string>, names: seq<string>)
    requires asked != [] && NamedSo(asked, names)
    ensures var n := |asked| - 1;
      && |names| == |asked| && NamedSo(asked[..n], names[..n])
      && names[n] == if asked[n] in asked[..n] then Second(asked[n]) else asked[n]
  {
    hide Second;
    var n := |asked| - 1;
    forall k | 0 <= k < n ensures asked[..n][..k] == asked[..k] {}
  }

  lemma {:induction false} SecondOfNoneBefore(asked: seq<string>, name: string)
    requires asked != [] && SecondOfNone(asked, name)
    ensures SecondOfNone(asked[..|asked| - 1], name) && name != Second(asked[|asked| - 1])
  {
    hide Second;
  }

  lemma {:induction false} InOrLast(asked: seq<string>, name: string)
    requires asked != []
    ensures name in asked <==> name in asked[..|asked| - 1] || name == asked[|asked| - 1]
  {
    assert asked == asked[..|asked| - 1] + [asked[|asked| - 1]];
  }

  lemma {:induction false} TimesOfLast(names: seq<string>, name: string)
    requires names != []
    ensures Times(names, name) == Times(names[..|names| - 1], name) + if names[|names| - 1] == name then 1 else 0
  {}

  lemma {:induction false} NoTimes(name: string)
    ensures Times([], name) == 0
  {}

  lemma {:induction false} TimesGiven(asked: seq<string>, names: seq<string>, name: string)
    requires NamedSo(asked, names) && SecondOfNone(asked, name)
    ensures Times(names, name) == if name in asked then 1 else 0
  {
    if asked == [] {
      assert names == [];
      NoTimes(name);
    } else {
      hide *;
      NamedBefore(asked, names);
      SecondOfNoneBefore(asked, name);
      TimesGiven(asked[..|asked| - 1], names[..|asked| - 1], name);
      InOrLast(asked, name);
      TimesOfLast(names, name);
    }
  }

  lemma {:induction false} NamedNext(asked: seq<string>, names: seq<string>, last: string)
    requires NamedSo(asked, names)
    ensures NamedSo(asked + [last], names + [if last in asked then Second(last) else last])
  {
    hide Second;
    var all, given := asked + [last], names + [if last in asked then Second(last) else last];
    forall k | 0 <= k < |all| ensures given[k] == if all[k] in all[..k] then Second(all[k]) else all[k] {
      assert all[..k] == asked[..k];
      if k == |asked| { assert all[..k] == asked; }
    }
  }

  lemma {:induction false} NoClashBefore(asked: seq<string>)
    requires asked != [] && NoClash(asked)
    ensures NoClash(asked[..|asked| - 1]) && SecondOfNone(asked[..|asked| - 1], asked[|asked| - 1])
  {
    hide Second;
  }

  lemma {:induction false} NameIs(names: seq<string>, name: string)
    ensures Times(names, name) == 0 ==> NameFor(names, name) == name
    ensures Times(names, name) == 1 ==> NameFor(names, name) == Second(name)
  {
    hide Numbered;
  }

  /** The first file of a name has it; every later one has the name with a two. */
  lemma {:induction false} NamesAre(asked: seq<string>)
    requires NoClash(asked)
    ensures NamedSo(asked, Names(asked))
  {
    if asked != [] {
      var n := |asked| - 1;
      var before, last := asked[..n], asked[n];
      NoClashBefore(asked);
      assert asked == before + [last];
      hide NoClash, NamedSo, NameFor, Second, SecondOfNone;
      NamesAre(before);
      TimesGiven(before, Names(before), last);
      NamedNext(before, Names(before), last);
      NameIs(Names(before), last);
    }
  }

  ghost predicate ThreeTimes(asked: seq<string>) {
    exists i, j, k :: 0 <= i < j < k < |asked| && asked[i] == asked[j] == asked[k]
  }

  /** Where no file is asked for under a numbered name, the files get distinct names exactly when none is asked for
      three times. */
  lemma {:induction false} DistinctExactly(asked: seq<string>)
    requires NoClash(asked)
    ensures Distinct(Names(asked)) <==> !ThreeTimes(asked)
  {
    NamesAre(asked);
    hide Names, Second;
    if ThreeTimes(asked) {
      var i, j, k :| 0 <= i < j < k < |asked| && asked[i] == asked[j] == asked[k];
      assert asked[i] in asked[..j] && asked[i] in asked[..k];
      assert Names(asked)[j] == Names(asked)[k];
    } else {
      forall j, k | 0 <= j < k < |asked| ensures Names(asked)[j] != Names(asked)[k] { TwoApart(asked, j, k); }
    }
  }

  lemma {:induction false} TwoApart(asked: seq<string>, j: nat, k: nat)
    requires NoClash(asked) && NamedSo(asked, Names(asked)) && !ThreeTimes(asked) && j < k < |asked|
    ensures Names(asked)[j] != Names(asked)[k]
  {
    hide Names, Second;
    if asked[j] in asked[..j] && asked[k] in asked[..k] && Second(asked[j]) == Second(asked[k]) {
      SecondTells(asked[j], asked[k]);
    } else if asked[j] == asked[k] {
      assert asked[k] == asked[..k][j];
    }
  }

  // ----- what is on disk -----

  /** The files written one after another: of those of one name the last remains. */
  function OnDisk(files: seq<File>): map<string, string> {
    if files == [] then map[] else OnDisk(files[..|files| - 1])[files[|files| - 1].name := files[|files| - 1].data]
  }

  ghost predicate AllThere(files: seq<File>) {
    forall i :: 0 <= i < |files| ==> files[i].name in OnDisk(files) && OnDisk(files)[files[i].name] == files[i].data
  }

  lemma {:induction false} LastRemains(files: seq<File>, i: nat)
    requires i < |files| && forall j :: i < j < |files| ==> files[j].name != files[i].name
    ensures files[i].name in OnDisk(files) && OnDisk(files)[files[i].name] == files[i].data
  {
    var n := |files| - 1;
    if i < n { LastRemains(files[..n], i); }
  }

  /** Files of distinct names are all there. */
  lemma {:induction false} DistinctAreThere(files: seq<File>)
    requires Distinct(FileNames(files))
    ensures AllThere(files)
  {
    forall i | 0 <= i < |files| ensures files[i].name in OnDisk(files) && OnDisk(files)[files[i].name] == files[i].data {
      forall j | i < j < |files| ensures files[j].name != files[i].name { assert FileNames(files)[i] != FileNames(files)[j]; }
      LastRemains(files, i);
    }
  }

  /** Of three files of one name the second is lost, unless the third says the same: at the path that stands for it
      is something else. */
  lemma {:induction false} SecondOfThreeIsLost(files: seq<File>, asked: seq<string>, i: nat, j: nat, k: nat)
    requires NoClash(asked) && FileNames(files) == Names(asked)
    requires i < j < k < |asked| && asked[i] == asked[j] == asked[k]
    requires (forall m :: k < m < |asked| ==> asked[m] != asked[k]) && files[j].data != files[k].data
    ensures files[j].name in OnDisk(files) && OnDisk(files)[files[j].name] != files[j].data
  {
    NamesAre(asked);
    hide Names, Second;
    assert asked[i] in asked[..j] && asked[i] in asked[..k];
    assert FileNames(files)[j] == files[j].name && FileNames(files)[k] == files[k].name;
    forall m | k < m < |files| ensures files[m].name != files[k].name {
      assert FileNames(files)[m] == files[m].name;
      if asked[m] in asked[..m] && Second(asked[m]) == Second(asked[k]) { SecondTells(asked[m], asked[k]); }
    }
    LastRemains(files, k);
  }
}
