/** The file manifest of build_mvp_website.py and its normalisation in
    `define_website_structure`, after the two model replies have been parsed: the two
    essential files are added when missing, the ranks of the second reply are merged in,
    and the list is sorted by rank. */
module Manifest {
  import opened Wrappers

  /** `FileDescription`: a file of the website, with the rank the model gave it. */
  datatype FileDescription = FileDescription(fileName: string, description: string, importance: Option<int>)

  /** One item of the ranking reply, `{"file_name": ..., "importance": ...}`; a JSON
      `null` importance is `None`. */
  datatype RankEntry = RankEntry(fileName: string, importance: Option<int>)

  const EssentialFiles: seq<string> := ["app.py", "requirements.txt"]

  /** The sort key used for a file without a rank. */
  const MissingRank := 999

  /** The record appended for a missing essential file. */
  function DefaultDescription(name: string): FileDescription
  {
    FileDescription(name, "This is the " + name + " file for the app.", None)
  }

  /** `any(file.file_name == name for file in files)` */
  predicate HasFile(files: seq<FileDescription>, name: string)
  {
    exists i :: 0 <= i < |files| && files[i].fileName == name
  }

  /** How many records carry `name`. */
  function Count(files: seq<FileDescription>, name: string): nat
  {
    if files == [] then 0
    else Count(files[..|files| - 1], name) + (if files[|files| - 1].fileName == name then 1 else 0)
  }

  function AddIfMissing(files: seq<FileDescription>, name: string): seq<FileDescription>
  {
    if HasFile(files, name) then files else files + [DefaultDescription(name)]
  }

  /** The list after the essential-file loop has run over `names`, in order. */
  function AddAllMissing(files: seq<FileDescription>, names: seq<string>): seq<FileDescription>
    decreases |names|
  {
    if names == [] then files else AddAllMissing(AddIfMissing(files, names[0]), names[1..])
  }

  /** The essential-file loop: for each essential name, in order, append its default
      record unless some record already carries that name. */
  method AddEssentialFiles(files: seq<FileDescription>) returns (r: seq<FileDescription>)
    ensures r == AddAllMissing(files, EssentialFiles)
    ensures HasFile(r, "app.py") && HasFile(r, "requirements.txt")
  {
    r := files;
    for k := 0 to |EssentialFiles|
      invariant AddAllMissing(r, EssentialFiles[k..]) == AddAllMissing(files, EssentialFiles)
    {
      var name := EssentialFiles[k];
      var found := false;
      var i := 0;
      while i < |r| && !found
        invariant 0 <= i <= |r|
        invariant found <==> exists j :: 0 <= j < i && r[j].fileName == name
      {
        found := r[i].fileName == name;
        i := i + 1;
      }
      assert found == HasFile(r, name);
      assert EssentialFiles[k..][1..] == EssentialFiles[k + 1..];
      if !found {
        r := r + [DefaultDescription(name)];
      }
    }
    assert EssentialFiles[2..] == [];
    AddAllMissingProperties(files, EssentialFiles);
  }

  lemma HasFileIffCount(files: seq<FileDescription>, name: string)
    ensures HasFile(files, name) <==> Count(files, name) > 0
  {
    if files != [] {
      var init := files[..|files| - 1];
      HasFileIffCount(init, name);
      assert forall i :: 0 <= i < |init| ==> init[i] == files[i];
      if HasFile(files, name) && files[|files| - 1].fileName != name {
        var i :| 0 <= i < |files| && files[i].fileName == name;
        assert i < |init| && init[i].fileName == name;
      }
    }
  }

  /** What the essential-file loop does to a list: the old records stay first and
      unchanged, every essential name is present afterwards, and each appended record is
      the default record of a distinct essential name that was missing. A name that was
      present keeps its count; one that was missing occurs exactly once. */
  lemma {:induction false} AddAllMissingProperties(files: seq<FileDescription>, names: seq<string>)
    requires forall i, j :: 0 <= i < j < |names| ==> names[i] != names[j]
    ensures var r := AddAllMissing(files, names);
      |files| <= |r| && r[..|files|] == files &&
      (forall n :: n in names ==> HasFile(r, n)) &&
      (forall i :: |files| <= i < |r| ==>
        r[i] == DefaultDescription(r[i].fileName) && r[i].fileName in names && !HasFile(files, r[i].fileName)) &&
      (forall n :: n in names ==> Count(r, n) == if HasFile(files, n) then Count(files, n) else 1) &&
      (forall n :: n !in names ==> Count(r, n) == Count(files, n))
    decreases |names|
  {
    if names != [] {
      var n0 := names[0];
      var f1 := AddIfMissing(files, n0);
      AddAllMissingProperties(f1, names[1..]);
      var r := AddAllMissing(files, names);
      assert r == AddAllMissing(f1, names[1..]);
      assert f1[..|files|] == files;
      assert r[..|files|] == r[..|f1|][..|files|];
      HasFileIffCount(files, n0);
      assert Count(f1, n0) == if HasFile(files, n0) then Count(files, n0) else 1 by {
        if !HasFile(files, n0) {
          assert f1[..|f1| - 1] == files;
        }
      }
      forall n | n != n0
        ensures Count(f1, n) == Count(files, n) && (HasFile(f1, n) <==> HasFile(files, n))
      {
        if !HasFile(files, n0) {
          assert f1[..|f1| - 1] == files;
        }
        HasFileIffCount(files, n);
        HasFileIffCount(f1, n);
      }
      assert HasFile(f1, n0) by {
        if !HasFile(files, n0) {
          assert f1[|f1| - 1].fileName == n0;
        }
      }
      forall n | n in names ensures HasFile(r, n) {
        if n == n0 {
          var i :| 0 <= i < |f1| && f1[i].fileName == n0;
          assert r[i] == f1[i];
        }
      }
      forall i | |files| <= i < |r|
        ensures r[i] == DefaultDescription(r[i].fileName) && r[i].fileName in names && !HasFile(files, r[i].fileName)
      {
        if i >= |f1| {
          assert r[i].fileName in names[1..];
        } else {
          assert !HasFile(files, n0) && i == |files| && r[i] == f1[i] == DefaultDescription(n0);
        }
      }
    }
  }

  /** `{item["file_name"]: item["importance"] for item in rankings}`: a later item for
      the same file overrides an earlier one. */
  function RankMap(rankings: seq<RankEntry>): map<string, Option<int>>
  {
    if rankings == [] then map[]
    else RankMap(rankings[..|rankings| - 1])[rankings[|rankings| - 1].fileName := rankings[|rankings| - 1].importance]
  }

  /** The rank map holds exactly the ranked names. */
  lemma {:induction false} RankMapKeys(rankings: seq<RankEntry>, name: string)
    ensures name in RankMap(rankings) <==> exists i :: 0 <= i < |rankings| && rankings[i].fileName == name
  {
    if rankings != [] {
      var init := rankings[..|rankings| - 1];
      RankMapKeys(init, name);
      if exists i :: 0 <= i < |init| && init[i].fileName == name {
        var i :| 0 <= i < |init| && init[i].fileName == name;
        assert rankings[i].fileName == name;
      }
      if exists i :: 0 <= i < |rankings| && rankings[i].fileName == name {
        var i :| 0 <= i < |rankings| && rankings[i].fileName == name;
        if i < |init| {
          assert init[i].fileName == name;
        }
      }
    }
  }

  /** A ranked name carries the importance of the last item that names it. */
  lemma {:induction false} RankMapLast(rankings: seq<RankEntry>, i: nat)
    requires i < |rankings|
    requires forall j :: i < j < |rankings| ==> rankings[j].fileName != rankings[i].fileName
    ensures rankings[i].fileName in RankMap(rankings)
    ensures RankMap(rankings)[rankings[i].fileName] == rankings[i].importance
  {
    if i < |rankings| - 1 {
      var init := rankings[..|rankings| - 1];
      assert init[i] == rankings[i];
      RankMapLast(init, i);
    }
  }

  /** `file.importance = rank_map[file.file_name]` for a ranked record. */
  function Rerank(f: FileDescription, rankMap: map<string, Option<int>>): FileDescription
  {
    if f.fileName in rankMap then f.(importance := rankMap[f.fileName]) else f
  }

  function Ranked(files: seq<FileDescription>, rankMap: map<string, Option<int>>): (r: seq<FileDescription>)
    ensures |r| == |files|
  {
    seq(|files|, i requires 0 <= i < |files| => Rerank(files[i], rankMap))
  }

  /** The loop that merges the ranks in: a record whose name has a rank gets exactly that
      rank; every other record is untouched; names, descriptions and order do not
      change. */
  method ApplyRankMap(files: seq<FileDescription>, rankMap: map<string, Option<int>>) returns (r: seq<FileDescription>)
    ensures r == Ranked(files, rankMap)
    ensures |r| == |files|
    ensures forall i :: 0 <= i < |files| ==>
      r[i].fileName == files[i].fileName && r[i].description == files[i].description &&
      r[i].importance == (if files[i].fileName in rankMap then rankMap[files[i].fileName] else files[i].importance)
  {
    r := files;
    for i := 0 to |r|
      invariant |r| == |files|
      invariant forall j :: 0 <= j < i ==> r[j] == Rerank(files[j], rankMap)
      invariant forall j :: i <= j < |r| ==> r[j] == files[j]
    {
      if r[i].fileName in rankMap {
        r := r[i := r[i].(importance := rankMap[r[i].fileName])];
      }
    }
  }

  /** The sort key, `x.importance if x.importance is not None else 999`. */
  function RankKey(f: FileDescription): int
  {
    if f.importance.Some? then f.importance.value else MissingRank
  }

  predicate SortedByRank(s: seq<FileDescription>)
  {
    forall i, j :: 0 <= i < j < |s| ==> RankKey(s[i]) <= RankKey(s[j])
  }

  /** The records with sort key `k`, in their order in `s`. */
  function WithKey(s: seq<FileDescription>, k: int): seq<FileDescription>
  {
    if s == [] then [] else (if RankKey(s[0]) == k then [s[0]] else []) + WithKey(s[1..], k)
  }

  function InsertByRank(x: FileDescription, s: seq<FileDescription>): seq<FileDescription>
  {
    if s == [] || RankKey(x) <= RankKey(s[0]) then [x] + s else [s[0]] + InsertByRank(x, s[1..])
  }

  /** `file_descriptions.sort(key=...)`: Python's sort is stable, and is modelled by a
      stable insertion sort; `StableSortIsUnique` shows that any stable sort gives the
      same list. */
  function SortByImportance(s: seq<FileDescription>): seq<FileDescription>
  {
    if s == [] then [] else InsertByRank(s[0], SortByImportance(s[1..]))
  }

  lemma {:induction false} InsertByRankPermutes(x: FileDescription, s: seq<FileDescription>)
    ensures multiset(InsertByRank(x, s)) == multiset{x} + multiset(s)
  {
    if !(s == [] || RankKey(x) <= RankKey(s[0])) {
      InsertByRankPermutes(x, s[1..]);
      assert s == [s[0]] + s[1..];
    }
  }

  lemma {:induction false} InsertByRankKeys(x: FileDescription, s: seq<FileDescription>, k: int)
    requires SortedByRank(s)
    ensures WithKey(InsertByRank(x, s), k) == (if RankKey(x) == k then [x] else []) + WithKey(s, k)
  {
    if s == [] || RankKey(x) <= RankKey(s[0]) {
      assert ([x] + s)[1..] == s;
    } else {
      InsertByRankKeys(x, s[1..], k);
      var t := InsertByRank(x, s[1..]);
      assert ([s[0]] + t)[1..] == t;
    }
  }

  lemma {:induction false} InsertByRankSorted(x: FileDescription, s: seq<FileDescription>)
    requires SortedByRank(s)
    ensures SortedByRank(InsertByRank(x, s))
  {
    if !(s == [] || RankKey(x) <= RankKey(s[0])) {
      InsertByRankSorted(x, s[1..]);
      InsertByRankPermutes(x, s[1..]);
      var t := InsertByRank(x, s[1..]);
      var u := [s[0]] + t;
      forall j | 0 < j < |u| ensures RankKey(s[0]) <= RankKey(u[j]) {
        var y := t[j - 1];
        assert y in multiset(t);
        if y != x {
          assert y in multiset(s[1..]);
          var m :| 0 <= m < |s[1..]| && s[1..][m] == y;
          assert s[m + 1] == y;
        }
      }
    }
  }

  /** The sorted manifest is ordered by rank, missing ranks counting as 999. */
  lemma {:induction false} SortByImportanceSorted(s: seq<FileDescription>)
    ensures SortedByRank(SortByImportance(s))
    ensures multiset(SortByImportance(s)) == multiset(s)
    ensures forall k :: WithKey(SortByImportance(s), k) == WithKey(s, k)
  {
    if s != [] {
      SortByImportanceSorted(s[1..]);
      var t := SortByImportance(s[1..]);
      InsertByRankSorted(s[0], t);
      InsertByRankPermutes(s[0], t);
      forall k ensures WithKey(SortByImportance(s), k) == WithKey(s, k) {
        InsertByRankKeys(s[0], t, k);
      }
      assert s == [s[0]] + s[1..];
    }
  }

  lemma {:induction false} WithKeyHead(s: seq<FileDescription>)
    requires s != []
    ensures WithKey(s, RankKey(s[0])) != [] && WithKey(s, RankKey(s[0]))[0] == s[0]
  {
  }

  lemma {:induction false} WithKeyEmptyBelowHead(s: seq<FileDescription>, k: int)
    requires SortedByRank(s) && s != [] && k < RankKey(s[0])
    ensures WithKey(s, k) == []
    decreases |s|
  {
    if |s| > 1 {
      WithKeyEmptyBelowHead(s[1..], k);
    }
  }

  /** Two lists sorted by rank that keep the records of every rank in the same order are
      equal: the stable sort is determined by its properties, so the insertion sort gives
      the result of Python's `list.sort`. */
  lemma {:induction false} StableSortIsUnique(a: seq<FileDescription>, b: seq<FileDescription>)
    requires SortedByRank(a) && SortedByRank(b)
    requires forall k :: WithKey(a, k) == WithKey(b, k)
    ensures a == b
    decreases |a|
  {
    if a == [] {
      if b != [] {
        WithKeyHead(b);
      }
    } else if b == [] {
      WithKeyHead(a);
    } else {
      var ka, kb := RankKey(a[0]), RankKey(b[0]);
      WithKeyHead(a);
      WithKeyHead(b);
      if ka < kb {
        WithKeyEmptyBelowHead(b, ka);
      } else if kb < ka {
        WithKeyEmptyBelowHead(a, kb);
      }
      assert ka == kb;
      assert a[0] == b[0];
      forall k ensures WithKey(a[1..], k) == WithKey(b[1..], k) {
        assert WithKey(a, k) == WithKey(b, k);
        if ka == k {
          assert WithKey(a, k) == [a[0]] + WithKey(a[1..], k);
          assert WithKey(b, k) == [b[0]] + WithKey(b[1..], k);
          assert WithKey(a[1..], k) == WithKey(a, k)[1..];
          assert WithKey(b[1..], k) == WithKey(b, k)[1..];
        } else {
          assert WithKey(a, k) == WithKey(a[1..], k);
          assert WithKey(b, k) == WithKey(b[1..], k);
        }
      }
      StableSortIsUnique(a[1..], b[1..]);
      assert a == [a[0]] + a[1..] && b == [b[0]] + b[1..];
    }
  }

  /** The manifest that `define_website_structure` returns for parsed replies. */
  function Normalised(parsed: seq<FileDescription>, rankings: seq<RankEntry>): seq<FileDescription>
  {
    SortByImportance(Ranked(AddAllMissing(parsed, EssentialFiles), RankMap(rankings)))
  }

  /** The normalisation after the replies have been parsed; `None` for a reply that could
      not be parsed into records, as for any exception the source catches. */
  method DefineWebsiteStructure(parsed: Option<seq<FileDescription>>, rankings: Option<seq<RankEntry>>)
    returns (result: Option<seq<FileDescription>>)
    ensures result.None? <==> parsed.None? || rankings.None?
    ensures result.Some? ==> result.value == Normalised(parsed.value, rankings.value)
  {
    if parsed.None? {
      return None;
    }
    var files := AddEssentialFiles(parsed.value);
    if rankings.None? {
      return None;
    }
    var rankMap := RankMap(rankings.value);
    files := ApplyRankMap(files, rankMap);
    files := SortByImportance(files);
    return Some(files);
  }

  /** What the normalised manifest promises: both essential files are listed, the list is
      sorted by rank, it is a permutation of the ranked list, records of equal rank keep
      their relative order, and a ranked name carries the last rank given to it. */
  lemma NormalisedProperties(parsed: seq<FileDescription>, rankings: seq<RankEntry>)
    ensures var r := Normalised(parsed, rankings);
      var ranked := Ranked(AddAllMissing(parsed, EssentialFiles), RankMap(rankings));
      HasFile(r, "app.py") && HasFile(r, "requirements.txt") &&
      SortedByRank(r) &&
      multiset(r) == multiset(ranked) &&
      (forall k :: WithKey(r, k) == WithKey(ranked, k)) &&
      (forall i :: 0 <= i < |r| && r[i].fileName in RankMap(rankings) ==>
        r[i].importance == RankMap(rankings)[r[i].fileName])
  {
    NormalisedHasEssentials(parsed, rankings);
    SortByImportanceSorted(Ranked(AddAllMissing(parsed, EssentialFiles), RankMap(rankings)));
    NormalisedRanks(parsed, rankings);
  }

  lemma NormalisedHasEssentials(parsed: seq<FileDescription>, rankings: seq<RankEntry>)
    ensures forall n :: n in EssentialFiles ==> HasFile(Normalised(parsed, rankings), n)
  {
    var withEssentials := AddAllMissing(parsed, EssentialFiles);
    AddAllMissingProperties(parsed, EssentialFiles);
    var ranked := Ranked(withEssentials, RankMap(rankings));
    var r := Normalised(parsed, rankings);
    SortByImportanceSorted(ranked);
    forall n | n in EssentialFiles ensures HasFile(r, n) {
      var i :| 0 <= i < |withEssentials| && withEssentials[i].fileName == n;
      assert ranked[i].fileName == n;
      assert ranked[i] in multiset(r);
      var j :| 0 <= j < |r| && r[j] == ranked[i];
    }
  }

  lemma NormalisedRanks(parsed: seq<FileDescription>, rankings: seq<RankEntry>)
    ensures var r := Normalised(parsed, rankings); var m := RankMap(rankings);
      forall i :: 0 <= i < |r| && r[i].fileName in m ==> r[i].importance == m[r[i].fileName]
  {
    var m := RankMap(rankings);
    var ranked := Ranked(AddAllMissing(parsed, EssentialFiles), m);
    var r := Normalised(parsed, rankings);
    SortByImportanceSorted(ranked);
    forall i | 0 <= i < |r| && r[i].fileName in m ensures r[i].importance == m[r[i].fileName] {
      assert r[i] in multiset(ranked);
      var j :| 0 <= j < |ranked| && ranked[j] == r[i];
    }
  }

  /** The normalised manifest is never empty, so the `if not file_descriptions` test of
      the caller fails only when the normalisation returned `None`. */
  lemma NormalisedNonEmpty(parsed: seq<FileDescription>, rankings: seq<RankEntry>)
    ensures |Normalised(parsed, rankings)| >= 2
  {
    NormalisedProperties(parsed, rankings);
    var r := Normalised(parsed, rankings);
    var i :| 0 <= i < |r| && r[i].fileName == "app.py";
    var j :| 0 <= j < |r| && r[j].fileName == "requirements.txt";
    assert i != j;
  }
}
