/** `data_path` of both datasets: the subject check, the choice of the
    archive to fetch, the path of the `.mat` file the subject's data is
    read from, and whether the archive must be extracted first.

    The download layer and the file system are parameters: `resolve` maps
    the requested archive name to the local path of the cached archive
    (the download itself is not modelled), `present` says whether a local
    file is present. */
module Resolve {
  import opened Base
  import opened Decimal
  import opened Paths
  import opened Tables

  /** A subject identifier as callers may pass it: an integer or a
      string. */
  datatype SubjectId = Number(n: int) | Text(text: string)

  function SubjectCount(ds: Dataset): nat {
    match ds
    case Wang2016 => 35
    case Beta => 70
  }

  /** `list(range(1, n + 1))`. */
  function Subjects(ds: Dataset): (r: seq<int>)
    ensures |r| == SubjectCount(ds)
    ensures forall k :: 0 <= k < |r| ==> r[k] == k + 1
  {
    seq(SubjectCount(ds), k requires 0 <= k < SubjectCount(ds) => k + 1)
  }

  /** `subject in self.subjects`: a string is never equal to an integer of
      the list. */
  predicate IsSubject(ds: Dataset, id: SubjectId) {
    id.Number? && id.n in Subjects(ds)
  }

  /** The valid ids are exactly the integers 1..35 (Wang2016) and 1..70
      (BETA). */
  lemma SubjectRange(ds: Dataset, id: SubjectId)
    ensures IsSubject(ds, id) <==> id.Number? && 1 <= id.n <= SubjectCount(ds)
  {
    if id.Number? && 1 <= id.n <= SubjectCount(ds) {
      assert Subjects(ds)[id.n - 1] == id.n;
    }
  }

  /** `'S{:d}.mat'`: the file holding one subject's data. */
  function MatName(s: nat): string {
    "S" + Dec(s) + ".mat"
  }

  /** `'S{:d}.mat.7z'`: Wang2016's one-subject archive. */
  function WangArchive(s: nat): string {
    MatName(s) + ".7z"
  }

  /** BETA's archive for subjects `10k + 1 .. 10k + 10`. */
  function DecadeArchive(k: nat): string {
    "S" + Dec(10 * k + 1) + "-S" + Dec(10 * k + 10) + ".mat.zip"
  }

  /** BETA's chain of comparisons choosing the archive that holds a
      subject. */
  function BetaArchive(s: int): string {
    if s < 11 then "S1-S10.mat.zip"
    else if s < 21 then "S11-S20.mat.zip"
    else if s < 31 then "S21-S30.mat.zip"
    else if s < 41 then "S31-S40.mat.zip"
    else if s < 51 then "S41-S50.mat.zip"
    else if s < 61 then "S51-S60.mat.zip"
    else "S61-S70.mat.zip"
  }

  /** For every BETA subject the chain picks the archive of the subject's
      own decade: `k = (s - 1) div 10`, and `s` lies in `10k + 1 .. 10k +
      10`. */
  lemma BetaArchiveIsDecade(s: int)
    requires 1 <= s <= 70
    ensures var k := (s - 1) / 10;
      && 10 * k + 1 <= s <= 10 * k + 10
      && BetaArchive(s) == DecadeArchive(k)
  {
    if s < 11 {
      assert (s - 1) / 10 == 0;
      Decade0();
    } else if s < 21 {
      assert (s - 1) / 10 == 1;
      Decade1();
    } else if s < 31 {
      assert (s - 1) / 10 == 2;
      Decade2();
    } else if s < 41 {
      assert (s - 1) / 10 == 3;
      Decade3();
    } else if s < 51 {
      assert (s - 1) / 10 == 4;
      Decade4();
    } else if s < 61 {
      assert (s - 1) / 10 == 5;
      Decade5();
    } else {
      assert (s - 1) / 10 == 6;
      Decade6();
    }
  }

  /** Decade by decade: the literal the chain returns is the name spelled
      from the decade's bounds. One lemma per decade keeps each proof about
      a single pair of string literals. */
  lemma Decade0()
    ensures BetaArchive(1) == DecadeArchive(0)
  {
    TwoDigits(10);
    assert Dec(1) == "1" && Dec(10) == "10";
  }

  lemma Decade1()
    ensures BetaArchive(11) == DecadeArchive(1)
  {
    TwoDigits(11); TwoDigits(20);
    assert Dec(11) == "11" && Dec(20) == "20";
  }

  lemma Decade2()
    ensures BetaArchive(21) == DecadeArchive(2)
  {
    TwoDigits(21); TwoDigits(30);
    assert Dec(21) == "21" && Dec(30) == "30";
  }

  lemma Decade3()
    ensures BetaArchive(31) == DecadeArchive(3)
  {
    TwoDigits(31); TwoDigits(40);
    assert Dec(31) == "31" && Dec(40) == "40";
  }

  lemma Decade4()
    ensures BetaArchive(41) == DecadeArchive(4)
  {
    TwoDigits(41); TwoDigits(50);
    assert Dec(41) == "41" && Dec(50) == "50";
  }

  lemma Decade5()
    ensures BetaArchive(51) == DecadeArchive(5)
  {
    TwoDigits(51); TwoDigits(60);
    assert Dec(51) == "51" && Dec(60) == "60";
  }

  lemma Decade6()
    ensures BetaArchive(61) == DecadeArchive(6)
  {
    TwoDigits(61); TwoDigits(70);
    assert Dec(61) == "61" && Dec(70) == "70";
  }

  /** An extraction of `archive` into the directory `into`. */
  datatype Extraction = Extraction(archive: string, into: string)

  /** What `data_path` did for a valid subject: the archive name it
      requested from the download layer, the local archive it got back,
      the extraction it ran (if any), and the paths it returned. */
  datatype Resolved = Resolved(
    request: string,
    archive: string,
    extraction: Option<Extraction>,
    dests: seq<seq<string>>)
  {
    /** `dests[0][0]`, the file the loader reads. */
    function Target(): string
      requires |dests| > 0 && |dests[0]| > 0
    {
      dests[0][0]
    }
  }

  /** `data_path(subject)`. An invalid id fails before any archive is
      requested. Otherwise the subject's archive is requested, there is
      exactly one path, the archive is what the download layer returned for
      the request, and the archive is extracted next to itself exactly when
      that path is absent. The path is the archive path without `.7z`
      (Wang2016) or `S{s}.mat` beside the archive (BETA). */
  function DataPath(ds: Dataset, id: SubjectId, resolve: string -> string, present: string -> bool)
    : (r: Result<Resolved, LoadError>)
    ensures r.Err? <==> !IsSubject(ds, id)
    ensures r.Err? ==> r.error == InvalidSubject
    ensures r.Ok? ==> |r.value.dests| == 1 && |r.value.dests[0]| == 1
    ensures r.Ok? ==> r.value.archive == resolve(r.value.request)
    ensures r.Ok? ==> (r.value.extraction.Some? <==> !present(r.value.Target()))
    ensures r.Ok? && r.value.extraction.Some? ==>
      r.value.extraction.value == Extraction(r.value.archive, Parent(r.value.archive))
    ensures r.Ok? && ds == Wang2016 ==>
      && r.value.request == WangArchive(id.n)
      && r.value.Target() == DropLast(r.value.archive, 3)
    ensures r.Ok? && ds == Beta ==>
      && r.value.request == BetaArchive(id.n)
      && r.value.Target() == Join(Parent(r.value.archive), MatName(id.n))
  {
    if !IsSubject(ds, id) then Err(InvalidSubject)
    else
      var s := id.n;
      match ds
      case Wang2016 =>
        var request := WangArchive(s);
        var archive := resolve(request);
        var target := DropLast(archive, 3);
        var extraction := if present(target) then None else Some(Extraction(archive, Parent(archive)));
        Ok(Resolved(request, archive, extraction, [[target]]))
      case Beta =>
        var request := BetaArchive(s);
        var archive := resolve(request);
        var dir := Parent(archive);
        var target := Join(dir, MatName(s));
        var extraction := if present(target) then None else Some(Extraction(archive, dir));
        Ok(Resolved(request, archive, extraction, [[target]]))
  }

  /** A download layer that keeps each archive under its own name in one
      directory. */
  predicate KeepsNames(resolve: string -> string, dir: string, name: string) {
    resolve(name) == Join(dir, name)
  }

  /** Wang2016 requests `S{s}.mat.7z`; when that archive sits in a cache
      directory, the returned path is `S{s}.mat` in the same directory,
      the directory the archive is extracted into. */
  lemma WangTarget(s: int, resolve: string -> string, present: string -> bool, dir: string)
    requires 1 <= s <= 35
    requires IsDir(dir)
    requires KeepsNames(resolve, dir, WangArchive(s))
    ensures var r := DataPath(Wang2016, Number(s), resolve, present);
      && r.Ok?
      && r.value.request == WangArchive(s)
      && r.value.Target() == Join(dir, MatName(s))
      && Parent(r.value.Target()) == Parent(r.value.archive) == dir
  {
    WangTargetIsJoin(s, resolve, present, dir);
    MatNamePlain(s);
    SiblingParents(dir, MatName(s), ".7z");
  }

  /** Under a download layer that keeps names, Wang2016's archive and its
      returned path are the two names joined onto one directory. */
  lemma WangTargetIsJoin(s: int, resolve: string -> string, present: string -> bool, dir: string)
    requires 1 <= s <= 35
    requires KeepsNames(resolve, dir, WangArchive(s))
    ensures var r := DataPath(Wang2016, Number(s), resolve, present);
      && r.Ok?
      && r.value.request == WangArchive(s)
      && r.value.archive == Join(dir, WangArchive(s))
      && r.value.Target() == Join(dir, MatName(s))
  {
    SubjectRange(Wang2016, Number(s));
    var name := MatName(s);
    MatNamePlain(s);
    JoinAppend(dir, name, ".7z");
    DropAppended(Join(dir, name), ".7z");
  }

  /** BETA requests its decade's zip archive and returns `S{s}.mat` in the
      directory that holds the archive, the directory it extracts into. */
  lemma BetaTarget(s: int, resolve: string -> string, present: string -> bool)
    requires 1 <= s <= 70
    requires Normalised(resolve(BetaArchive(s)))
    ensures var r := DataPath(Beta, Number(s), resolve, present);
      && r.Ok?
      && r.value.request == DecadeArchive((s - 1) / 10)
      && Parent(r.value.Target()) == Parent(r.value.archive)
      && EndsWith(r.value.Target(), "/" + MatName(s))
  {
    SubjectRange(Beta, Number(s));
    BetaArchiveIsDecade(s);
    var archive := resolve(BetaArchive(s));
    var dir := Parent(archive);
    var name := MatName(s);
    ParentIsDir(archive);
    MatNamePlain(s);
    ParentOfJoin(dir, name);
    JoinEndsWith(dir, name);
    assert DataPath(Beta, Number(s), resolve, present).value.Target() == Join(dir, name);
  }

  /** A subject's file name is a plain, non-empty name without '/'. */
  lemma MatNamePlain(s: nat)
    ensures MatName(s) != [] && MatName(s)[0] == 'S' && '/' !in MatName(s)
  {
    var d := Dec(s);
    var m := MatName(s);
    assert m == "S" + d + ".mat";
    forall i | 0 <= i < |m|
      ensures m[i] != '/'
    {
      if 1 <= i < 1 + |d| {
        assert m[i] == d[i - 1];
      }
    }
  }

  /** Distinct subjects have distinct `.mat` files. */
  lemma MatNameInjective(a: nat, b: nat)
    ensures MatName(a) == MatName(b) ==> a == b
  {
    FramedDecInjective("S", a, b, ".mat");
  }

  /** The ten subjects of a BETA decade share one archive but read ten
      different files from the directory it is extracted into. */
  lemma BetaDecadeShared(a: int, b: int, resolve: string -> string, present: string -> bool)
    requires 1 <= a <= 70 && 1 <= b <= 70 && a != b
    requires (a - 1) / 10 == (b - 1) / 10
    ensures var ra := DataPath(Beta, Number(a), resolve, present);
      var rb := DataPath(Beta, Number(b), resolve, present);
      && ra.Ok? && rb.Ok?
      && ra.value.request == rb.value.request
      && ra.value.archive == rb.value.archive
      && ra.value.Target() != rb.value.Target()
  {
    SubjectRange(Beta, Number(a));
    SubjectRange(Beta, Number(b));
    BetaArchiveIsDecade(a);
    BetaArchiveIsDecade(b);
    MatNameInjective(a, b);
    JoinInjective(Parent(resolve(BetaArchive(a))), MatName(a), MatName(b));
  }
}
