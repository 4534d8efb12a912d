/** The download loop of `main`: for every keyword, for every record the
    search yields, name its file `{out_dir}/{sanitized name}_{id}.json`, skip
    it if that file exists, otherwise download the case and write the file.

    The output directory is a `Disk` whose files map a path to the JSON
    document written there. */
module Persist {
  import opened Types
  import opened Sanitize
  import opened Transport
  import opened Search

  class Disk {
    var files: map<string, Json>

    constructor (files: map<string, Json>)
      ensures this.files == files
    {
      this.files := files;
    }

    /** `os.path.exists`. */
    method Exists(path: string) returns (b: bool)
      ensures b <==> path in files
    {
      b := path in files;
    }

    /** `open(path, "w")` followed by `json.dump`. */
    method Write(path: string, doc: Json)
      modifies this
      ensures files == old(files)[path := doc]
    {
      files := files[path := doc];
    }
  }

  class CaseDownloader {
    const client: ApiClient

    constructor (client: ApiClient)
      ensures this.client == client
    {
      this.client := client;
    }

    /** `download`: one `get` of the case URL with no parameters, decoded. */
    method Download(caseUrl: string) returns (r: Result<Json>, ghost raw: Result<Response>)
      modifies client
      ensures client.Answered(Call(caseUrl, NoParams), DefaultMaxRetries, raw)
      ensures r == BodyOf(raw)
      ensures |client.network| <= old(|client.network|)
    {
      var resp := client.Get(caseUrl, NoParams, DefaultMaxRetries);
      raw := resp;
      r := BodyOf(resp);
    }
  }

  // ---------------------------------------------------------------------
  // Where a record is stored

  /** `os.path.join(dir, leaf)` on POSIX. */
  function JoinPath(dir: string, leaf: string): string {
    if leaf != [] && leaf[0] == '/' then leaf
    else if dir == [] || dir[|dir| - 1] == '/' then dir + leaf
    else dir + "/" + leaf
  }

  /** The directory part `JoinPath` puts in front of a relative leaf. */
  function DirPrefix(dir: string): string {
    if dir == [] || dir[|dir| - 1] == '/' then dir else dir + "/"
  }

  /** The file a record is stored in, and the URL its detail comes from. */
  datatype Target = Target(path: string, url: string)

  /** The record's keys are read in the source's order: `id`, then `url`
      (both required), then `name` (defaulting to `case_{id}`). */
  function TargetOf(outDir: string, meta: CaseMeta, isAlnum: char -> bool): (r: Result<Target>)
    ensures meta.id.None? ==> r == Err(MissingKey("id"))
    ensures meta.id.Some? && meta.url.None? ==> r == Err(MissingKey("url"))
    ensures meta.id.Some? && meta.url.Some? ==> r.Ok? && r.value.url == meta.url.value
  {
    match meta.id
    case None => Err(MissingKey("id"))
    case Some(id) =>
      match meta.url
      case None => Err(MissingKey("url"))
      case Some(url) =>
        var name := meta.name.GetOr("case_" + id);
        Ok(Target(JoinPath(outDir, SanitizeFilename(name, isAlnum) + "_" + id + ".json"), url))
  }

  /** Sanitizing keeps every case file directly inside the output directory:
      the leaf never starts with `/` (which would make `os.path.join` drop the
      directory), holds no `/` of its own when the id has none, and ends in
      `.json`. */
  lemma TargetInsideOutDir(outDir: string, meta: CaseMeta, isAlnum: char -> bool)
    requires AsciiExact(isAlnum)
    requires meta.id.Some? && meta.url.Some?
    requires forall i :: 0 <= i < |meta.id.value| ==> meta.id.value[i] != '/'
    ensures var p := TargetOf(outDir, meta, isAlnum).value.path;
      var dir := DirPrefix(outDir);
      && |dir| + 5 < |p|
      && p[..|dir|] == dir
      && (forall i :: |dir| <= i < |p| ==> p[i] != '/')
      && p[|p| - 5..] == ".json"
  {
    var id := meta.id.value;
    var name := meta.name.GetOr("case_" + id);
    var safe := SanitizeFilename(name, isAlnum);
    var leaf := safe + "_" + id + ".json";
    assert !Kept('/', isAlnum) by {
      assert ('/' as int) < 128;
    }
    forall i | 0 <= i < |leaf| ensures leaf[i] != '/' {
      if i < |safe| {
        assert Kept(safe[i], isAlnum);
      }
    }
    var p := JoinPath(outDir, leaf);
    assert p == DirPrefix(outDir) + leaf;
    assert p[|p| - 5..] == leaf[|leaf| - 5..];
  }

  // ---------------------------------------------------------------------
  // Which records are downloaded

  function Elems(s: seq<string>): set<string> {
    set x | x in s
  }

  /** The paths a run downloads, in order, when the directory starts with
      `existing` and the records map to `paths`: a record is fetched when
      its file is neither there from before nor written earlier in the run. */
  function Fetched(existing: set<string>, paths: seq<string>): seq<string>
    decreases |paths|
  {
    if paths == [] then []
    else
      var init := paths[..|paths| - 1];
      var p := paths[|paths| - 1];
      Fetched(existing, init) + (if p in existing || p in init then [] else [p])
  }

  /** A path is downloaded exactly when some record needs it and it was not
      there before, and it is downloaded once. */
  lemma {:induction false} FetchedExactlyNew(existing: set<string>, paths: seq<string>)
    ensures forall p :: p in Fetched(existing, paths) <==> p in paths && p !in existing
    ensures forall i, j :: 0 <= i < j < |Fetched(existing, paths)| ==> Fetched(existing, paths)[i] != Fetched(existing, paths)[j]
    decreases |paths|
  {
    if paths != [] {
      var init := paths[..|paths| - 1];
      FetchedExactlyNew(existing, init);
      assert paths == init + [paths[|paths| - 1]];
    }
  }

  /** When every file a run needs is already there, nothing is downloaded. */
  lemma {:induction false} NothingNewNothingFetched(existing: set<string>, paths: seq<string>)
    requires forall p :: p in paths ==> p in existing
    ensures Fetched(existing, paths) == []
    decreases |paths|
  {
    if paths != [] {
      NothingNewNothingFetched(existing, paths[..|paths| - 1]);
      assert paths[|paths| - 1] in paths;
    }
  }

  /** Re-running over the same records after a complete run downloads nothing. */
  lemma RerunFetchesNothing(existing: set<string>, paths: seq<string>)
    ensures Fetched(existing + Elems(paths), paths) == []
  {
    NothingNewNothingFetched(existing + Elems(paths), paths);
  }

  /** A run interrupted after the records `done`, re-run from the start over
      `done + rest`, downloads exactly what the uninterrupted run still had to. */
  lemma {:induction false} ResumeFetchesRest(existing: set<string>, done: seq<string>, rest: seq<string>)
    ensures Fetched(existing, done + rest) == Fetched(existing, done) + Fetched(existing + Elems(done), done + rest)
    decreases |rest|
  {
    if rest == [] {
      assert done + rest == done;
      RerunFetchesNothing(existing, done);
    } else {
      var rest' := rest[..|rest| - 1];
      var q := rest[|rest| - 1];
      assert (done + rest)[..|done + rest| - 1] == done + rest';
      assert (done + rest)[|done + rest| - 1] == q;
      ResumeFetchesRest(existing, done, rest');
      assert q in done ==> q in done + rest';
    }
  }

  /** A prefix of records whose files all exist already changes nothing
      about what the records after it download. */
  lemma {:induction false} FetchedSkipsKnown(existing: set<string>, done: seq<string>, rest: seq<string>)
    requires forall p :: p in done ==> p in existing
    ensures Fetched(existing, done + rest) == Fetched(existing, rest)
    decreases |rest|
  {
    if rest == [] {
      assert done + rest == done;
      NothingNewNothingFetched(existing, done);
    } else {
      var rest' := rest[..|rest| - 1];
      var q := rest[|rest| - 1];
      assert (done + rest)[..|done + rest| - 1] == done + rest';
      assert (done + rest)[|done + rest| - 1] == q;
      FetchedSkipsKnown(existing, done, rest');
      assert q in done + rest' <==> q in done || q in rest';
    }
  }

  /** What a run has done to the directory that held `files0`: it added the
      files of the records in `paths`, changed none that were there, and
      downloaded `fetched`. */
  ghost predicate Progress(files0: map<string, Json>, files: map<string, Json>, paths: seq<string>, fetched: seq<string>) {
    && files.Keys == files0.Keys + Elems(paths)
    && (forall p :: p in files0 ==> p in files && files[p] == files0[p])
    && fetched == Fetched(files0.Keys, paths)
  }

  /** Two stretches of a run, one after the other, are one stretch. */
  lemma ProgressThen(f0: map<string, Json>, f1: map<string, Json>, f2: map<string, Json>,
                     p1: seq<string>, p2: seq<string>, q1: seq<string>, q2: seq<string>)
    requires Progress(f0, f1, p1, q1) && Progress(f1, f2, p2, q2)
    ensures Progress(f0, f2, p1 + p2, q1 + q2)
  {
    assert Elems(p1 + p2) == Elems(p1) + Elems(p2);
    ResumeFetchesRest(f0.Keys, p1, p2);
    FetchedSkipsKnown(f1.Keys, p1, p2);
  }

  // ---------------------------------------------------------------------
  // The loop as a function of the server's replies

  function Paths(ts: seq<Target>): seq<string> {
    seq(|ts|, i requires 0 <= i < |ts| => ts[i].path)
  }

  lemma PathsAppend(a: seq<Target>, b: seq<Target>)
    ensures Paths(a + b) == Paths(a) + Paths(b)
  {
    assert forall i :: 0 <= i < |a + b| ==> Paths(a + b)[i] == (Paths(a) + Paths(b))[i];
  }

  /** The downloads of `ts`, one `get` of each target's URL without parameters. */
  function CallsOf(ts: seq<Target>): seq<Call> {
    seq(|ts|, i requires 0 <= i < |ts| => Call(ts[i].url, NoParams))
  }

  lemma CallsOfAppend(a: seq<Target>, b: seq<Target>)
    ensures CallsOf(a + b) == CallsOf(a) + CallsOf(b)
  {
    assert forall i :: 0 <= i < |a + b| ==> CallsOf(a + b)[i] == (CallsOf(a) + CallsOf(b))[i];
  }

  /** What a stretch of `main` amounts to: how it ended, the directory after
      it, the replies left, the `get` calls made, the targets of the records
      handled, the targets downloaded and written, and the pages each
      keyword's search read (one list per keyword). */
  datatype Run = Run(outcome: Outcome, files: map<string, Json>, left: seq<Response>, calls: seq<Call>,
                     targets: seq<Target>, fetched: seq<Target>, pages: seq<seq<Json>>)

  /** The calls made before a run, then those of a step made of `first`
      and `more`. */
  lemma CallsThen(before: seq<Call>, acc: Run, first: seq<Call>, more: seq<Call>, step: Run)
    requires step.calls == first + more
    ensures before + acc.calls + first + more == before + Then(acc, step).calls
    ensures before + acc.calls + step.calls == before + Then(acc, step).calls
  {
    assert before + acc.calls + first + more == before + (acc.calls + (first + more));
  }

  /** `rest` run after `first`. */
  function Then(first: Run, rest: Run): Run {
    Run(rest.outcome, rest.files, rest.left, first.calls + rest.calls, first.targets + rest.targets,
        first.fetched + rest.fetched, first.pages + rest.pages)
  }

  lemma ThenThen(a: Run, b: Run, c: Run)
    ensures Then(a, Then(b, c)) == Then(Then(a, b), c)
  {
    assert a.calls + (b.calls + c.calls) == (a.calls + b.calls) + c.calls;
    assert a.targets + (b.targets + c.targets) == (a.targets + b.targets) + c.targets;
    assert a.fetched + (b.fetched + c.fetched) == (a.fetched + b.fetched) + c.fetched;
    assert a.pages + (b.pages + c.pages) == (a.pages + b.pages) + c.pages;
  }

  /** Nothing done yet. */
  function Idle(files: map<string, Json>, script: seq<Response>): Run {
    Run(Done, files, script, [], [], [], [])
  }

  /** One record: a missing key aborts, an existing file is skipped without a
      request, otherwise the record's URL is fetched once and, if that
      succeeds, its body is written to the record's file. */
  function SaveStep(script: seq<Response>, files: map<string, Json>, outDir: string, meta: CaseMeta, isAlnum: char -> bool): (run: Run)
    ensures |run.left| <= |script|
  {
    var t := TargetOf(outDir, meta, isAlnum);
    if t.Err? then Run(Aborted(t.failure), files, script, [], [], [], [])
    else if t.value.path in files then Run(Done, files, script, [], [t.value], [], [])
    else
      var e := Transact(script, 0, DefaultMaxRetries);
      var call := Call(t.value.url, NoParams);
      match e.result
      case Err(f) => Run(Aborted(f), files, script[e.attempts..], [call], [], [], [])
      case Ok(resp) => Run(Done, files[t.value.path := resp.body], script[e.attempts..], [call], [t.value], [t.value], [])
  }

  /** The records of one page, in order, until one aborts the run. */
  function SaveRecords(script: seq<Response>, files: map<string, Json>, outDir: string, records: seq<CaseMeta>, isAlnum: char -> bool): (run: Run)
    ensures |run.left| <= |script|
    decreases |records|
  {
    if records == [] then Idle(files, script)
    else
      var step := SaveStep(script, files, outDir, records[0], isAlnum);
      if step.outcome.Aborted? then step
      else Then(step, SaveRecords(step.left, step.files, outDir, records[1..], isAlnum))
  }

  /** One keyword's search from the page `cursor` leads to, `read` being the
      pages of this keyword read so far: each page is requested, its records
      saved, and then the next page requested, until a page has no `next`
      or something aborts the run. */
  function SearchFrom(script: seq<Response>, files: map<string, Json>, outDir: string, keyword: string, pageSize: int,
                      cursor: Option<string>, read: seq<Json>, isAlnum: char -> bool): (run: Run)
    ensures |run.left| <= |script| && |run.pages| == 1
    decreases |script|
  {
    var call := RequestFor(keyword, pageSize, cursor);
    var e := Transact(script, 0, DefaultMaxRetries);
    match e.result
    case Err(f) => Run(Aborted(f), files, script[e.attempts..], [call], [], [], [read])
    case Ok(resp) =>
      var page := resp.body;
      var saved := SaveRecords(script[e.attempts..], files, outDir, page.results, isAlnum);
      var step := Run(saved.outcome, saved.files, saved.left, [call] + saved.calls, saved.targets, saved.fetched, []);
      if saved.outcome.Aborted? || !Truthy(page.next) then step.(pages := [read + [page]])
      else Then(step, SearchFrom(saved.left, saved.files, outDir, keyword, pageSize, page.next, read + [page], isAlnum))
  }

  /** `main`: every keyword's search in turn, on one client, until something
      aborts the run. */
  function MainRun(script: seq<Response>, files: map<string, Json>, outDir: string, keywords: seq<string>, isAlnum: char -> bool): (run: Run)
    ensures |run.left| <= |script|
    decreases |keywords|
  {
    if keywords == [] then Idle(files, script)
    else
      var first := SearchFrom(script, files, outDir, keywords[0], DefaultPageSize, None, [], isAlnum);
      if first.outcome.Aborted? then first
      else Then(first, MainRun(first.left, first.files, outDir, keywords[1..], isAlnum))
  }

  // ---------------------------------------------------------------------
  // What the loop downloads and writes

  /** One record adds its file, keeps the others, and downloads it exactly
      when it is new; an aborting record changes nothing on the disk. */
  lemma SaveStepProgress(script: seq<Response>, files: map<string, Json>, outDir: string, meta: CaseMeta, isAlnum: char -> bool)
    ensures var run := SaveStep(script, files, outDir, meta, isAlnum);
      Progress(files, run.files, Paths(run.targets), Paths(run.fetched)) && run.pages == []
  {
    var run := SaveStep(script, files, outDir, meta, isAlnum);
    if |run.targets| == 1 {
      var p := run.targets[0].path;
      assert Paths(run.targets) == [p];
      assert [p][..0] == [];
      assert Elems([p]) == {p};
    }
  }

  /** The records of a page add their files, keep every file that was there,
      and download exactly `Fetched` of their paths. */
  lemma {:induction false} SaveRecordsProgress(script: seq<Response>, files: map<string, Json>, outDir: string, records: seq<CaseMeta>, isAlnum: char -> bool)
    ensures var run := SaveRecords(script, files, outDir, records, isAlnum);
      Progress(files, run.files, Paths(run.targets), Paths(run.fetched)) && run.pages == []
    decreases |records|
  {
    SaveStepProgress(script, files, outDir, if records == [] then CaseMeta(None, None, None) else records[0], isAlnum);
    if records != [] {
      var step := SaveStep(script, files, outDir, records[0], isAlnum);
      if step.outcome.Done? {
        var rest := SaveRecords(step.left, step.files, outDir, records[1..], isAlnum);
        SaveRecordsProgress(step.left, step.files, outDir, records[1..], isAlnum);
        ProgressThen(files, step.files, rest.files, Paths(step.targets), Paths(rest.targets), Paths(step.fetched), Paths(rest.fetched));
        PathsAppend(step.targets, rest.targets);
        PathsAppend(step.fetched, rest.fetched);
      }
    }
  }

  /** One record: a record that goes through is stored under its target and
      downloaded only if fetched; one that aborts the run leaves the disk as
      it was and made the failing download's request, if any. */
  lemma SaveStepTargets(script: seq<Response>, files: map<string, Json>, outDir: string, meta: CaseMeta, isAlnum: char -> bool)
    ensures var step := SaveStep(script, files, outDir, meta, isAlnum);
      var t := TargetOf(outDir, meta, isAlnum);
      && (step.outcome.Done? ==> t.Ok? && step.targets == [t.value] && step.calls == CallsOf(step.fetched))
      && (step.outcome.Aborted? ==>
            && step.targets == [] && step.fetched == [] && step.files == files
            && (t.Err? ==> step.outcome.failure == t.failure && step.calls == [])
            && (t.Ok? ==> t.value.path !in files && step.calls == [Call(t.value.url, NoParams)]))
  {
    var step := SaveStep(script, files, outDir, meta, isAlnum);
    if |step.fetched| == 1 {
      assert CallsOf(step.fetched) == [Call(step.fetched[0].url, NoParams)];
    } else {
      assert CallsOf(step.fetched) == [];
    }
  }

  /** `records` are stored under `targets`, one for one, as far as
      `targets` goes. */
  ghost predicate StoredAs(outDir: string, records: seq<CaseMeta>, targets: seq<Target>, isAlnum: char -> bool) {
    |targets| <= |records| && forall k :: 0 <= k < |targets| ==> TargetOf(outDir, records[k], isAlnum) == Ok(targets[k])
  }

  lemma StoredAsAppend(outDir: string, r1: seq<CaseMeta>, t1: seq<Target>, r2: seq<CaseMeta>, t2: seq<Target>, isAlnum: char -> bool)
    requires StoredAs(outDir, r1, t1, isAlnum) && |t1| == |r1| && StoredAs(outDir, r2, t2, isAlnum)
    ensures StoredAs(outDir, r1 + r2, t1 + t2, isAlnum)
  {
    forall k | 0 <= k < |t1 + t2| ensures TargetOf(outDir, (r1 + r2)[k], isAlnum) == Ok((t1 + t2)[k]) {
      if k >= |t1| {
        assert (r1 + r2)[k] == r2[k - |t1|] && (t1 + t2)[k] == t2[k - |t1|];
      }
    }
  }

  /** A record stored under `t`, in front of records stored under `targets`. */
  lemma StoredAsCons(outDir: string, records: seq<CaseMeta>, t: Target, targets: seq<Target>, isAlnum: char -> bool)
    requires records != [] && TargetOf(outDir, records[0], isAlnum) == Ok(t)
    requires StoredAs(outDir, records[1..], targets, isAlnum)
    ensures StoredAs(outDir, records, [t] + targets, isAlnum)
  {
    forall k | 0 <= k < |[t] + targets| ensures TargetOf(outDir, records[k], isAlnum) == Ok(([t] + targets)[k]) {
      if k > 0 {
        assert records[k] == records[1..][k - 1];
      }
    }
  }

  /** The records handled are a prefix of the page, each stored under its
      target; a run that does not abort handles all of them. */
  lemma {:induction false} SaveRecordsTargets(script: seq<Response>, files: map<string, Json>, outDir: string, records: seq<CaseMeta>, isAlnum: char -> bool)
    ensures var run := SaveRecords(script, files, outDir, records, isAlnum);
      StoredAs(outDir, records, run.targets, isAlnum) && (run.outcome.Done? <==> |run.targets| == |records|)
    decreases |records|
  {
    if records != [] {
      var step := SaveStep(script, files, outDir, records[0], isAlnum);
      SaveStepTargets(script, files, outDir, records[0], isAlnum);
      if step.outcome.Done? {
        var rest := SaveRecords(step.left, step.files, outDir, records[1..], isAlnum);
        SaveRecordsTargets(step.left, step.files, outDir, records[1..], isAlnum);
        StoredAsCons(outDir, records, step.targets[0], rest.targets, isAlnum);
        assert step.targets == [step.targets[0]];
      }
    }
  }

  /** The requests the records of a page handled by `run` made: the URL of
      each target it fetched, once and in order, and, when a download
      failed, that record's URL last; a record with a missing key aborts
      without a request. */
  ghost predicate CallsFit(outDir: string, records: seq<CaseMeta>, run: Run, isAlnum: char -> bool) {
    && (run.outcome.Done? ==> run.calls == CallsOf(run.fetched))
    && (run.outcome.Aborted? ==>
          && |run.targets| < |records|
          && var t := TargetOf(outDir, records[|run.targets|], isAlnum);
          && (t.Err? ==> run.outcome.failure == t.failure && run.calls == CallsOf(run.fetched))
          && (t.Ok? ==> t.value.path !in run.files && run.calls == CallsOf(run.fetched) + [Call(t.value.url, NoParams)]))
  }

  /** A record that went through, then the rest of the page. */
  lemma CallsFitThen(outDir: string, records: seq<CaseMeta>, step: Run, rest: Run, isAlnum: char -> bool)
    requires records != [] && step.outcome.Done? && |step.targets| == 1 && step.calls == CallsOf(step.fetched)
    requires CallsFit(outDir, records[1..], rest, isAlnum)
    ensures CallsFit(outDir, records, Then(step, rest), isAlnum)
  {
    CallsOfAppend(step.fetched, rest.fetched);
    if rest.outcome.Aborted? {
      var n := |rest.targets|;
      assert records[1..][n] == records[n + 1];
      var t := TargetOf(outDir, records[n + 1], isAlnum);
      if t.Ok? {
        var c := [Call(t.value.url, NoParams)];
        assert step.calls + (CallsOf(rest.fetched) + c) == (step.calls + CallsOf(rest.fetched)) + c;
      }
    }
  }

  lemma {:induction false} SaveRecordsCalls(script: seq<Response>, files: map<string, Json>, outDir: string, records: seq<CaseMeta>, isAlnum: char -> bool)
    ensures CallsFit(outDir, records, SaveRecords(script, files, outDir, records, isAlnum), isAlnum)
    decreases |records|
  {
    assert CallsOf([]) == [];
    if records != [] {
      var step := SaveStep(script, files, outDir, records[0], isAlnum);
      SaveStepTargets(script, files, outDir, records[0], isAlnum);
      if step.outcome.Done? {
        SaveRecordsCalls(step.left, step.files, outDir, records[1..], isAlnum);
        CallsFitThen(outDir, records, step, SaveRecords(step.left, step.files, outDir, records[1..], isAlnum), isAlnum);
      }
    }
  }

  /** One keyword's search: the pages it read extend those read before, and
      if nothing aborted it they form a complete run. */
  lemma {:induction false} SearchFromPages(script: seq<Response>, files: map<string, Json>, outDir: string, keyword: string, pageSize: int,
                                           cursor: Option<string>, read: seq<Json>, isAlnum: char -> bool)
    requires Continuing(read)
    ensures var run := SearchFrom(script, files, outDir, keyword, pageSize, cursor, read, isAlnum);
      && |run.pages| == 1 && |read| <= |run.pages[0]| && run.pages[0][..|read|] == read
      && (run.outcome.Done? ==> Complete(run.pages[0]))
    decreases |script|
  {
    var e := Transact(script, 0, DefaultMaxRetries);
    if e.result.Ok? {
      var page := e.result.value.body;
      var saved := SaveRecords(script[e.attempts..], files, outDir, page.results, isAlnum);
      SaveRecordsProgress(script[e.attempts..], files, outDir, page.results, isAlnum);
      PageRead(keyword, pageSize, read, page);
      assert (read + [page])[..|read|] == read;
      if saved.outcome.Done? && Truthy(page.next) {
        var rest := SearchFrom(saved.left, saved.files, outDir, keyword, pageSize, page.next, read + [page], isAlnum);
        SearchFromPages(saved.left, saved.files, outDir, keyword, pageSize, page.next, read + [page], isAlnum);
        assert rest.pages[0][..|read|] == rest.pages[0][..|read| + 1][..|read|];
      }
    }
  }

  /** One keyword's search handles the records its pages yield, in order,
      each stored under its target, from the first record after the pages
      read before; if nothing aborted it, it handles all of them. */
  lemma {:induction false} SearchFromTargets(script: seq<Response>, files: map<string, Json>, outDir: string, keyword: string, pageSize: int,
                                             cursor: Option<string>, read: seq<Json>, isAlnum: char -> bool)
    requires Continuing(read)
    ensures var run := SearchFrom(script, files, outDir, keyword, pageSize, cursor, read, isAlnum);
      var found := Results(run.pages[0]);
      && |Results(read)| <= |found|
      && StoredAs(outDir, found[|Results(read)|..], run.targets, isAlnum)
      && (run.outcome.Done? ==> |Results(read)| + |run.targets| == |found|)
    decreases |script|, 1
  {
    var e := Transact(script, 0, DefaultMaxRetries);
    if e.result.Ok? {
      var page := e.result.value.body;
      var saved := SaveRecords(script[e.attempts..], files, outDir, page.results, isAlnum);
      PageRead(keyword, pageSize, read, page);
      if saved.outcome.Done? && Truthy(page.next) {
        SearchOnTargets(script, files, outDir, keyword, pageSize, cursor, read, isAlnum);
      } else {
        SaveRecordsTargets(script[e.attempts..], files, outDir, page.results, isAlnum);
        assert Results(read + [page]) == Results(read) + page.results;
        assert Results(read + [page])[|Results(read)|..] == page.results;
      }
    } else {
      assert Results(read)[|Results(read)|..] == [];
    }
  }

  /** `SearchFromTargets` when the first page is saved and has a `next`. */
  lemma {:induction false} SearchOnTargets(script: seq<Response>, files: map<string, Json>, outDir: string, keyword: string, pageSize: int,
                                           cursor: Option<string>, read: seq<Json>, isAlnum: char -> bool)
    requires Continuing(read)
    requires var e := Transact(script, 0, DefaultMaxRetries);
      && e.result.Ok? && Truthy(e.result.value.body.next)
      && SaveRecords(script[e.attempts..], files, outDir, e.result.value.body.results, isAlnum).outcome.Done?
    ensures var run := SearchFrom(script, files, outDir, keyword, pageSize, cursor, read, isAlnum);
      var found := Results(run.pages[0]);
      && |Results(read)| <= |found|
      && StoredAs(outDir, found[|Results(read)|..], run.targets, isAlnum)
      && (run.outcome.Done? ==> |Results(read)| + |run.targets| == |found|)
    decreases |script|, 0
  {
    var e := Transact(script, 0, DefaultMaxRetries);
    var page := e.result.value.body;
    var read' := read + [page];
    var saved := SaveRecords(script[e.attempts..], files, outDir, page.results, isAlnum);
    SaveRecordsTargets(script[e.attempts..], files, outDir, page.results, isAlnum);
    PageRead(keyword, pageSize, read, page);
    var rest := SearchFrom(saved.left, saved.files, outDir, keyword, pageSize, page.next, read', isAlnum);
    SearchFromPages(saved.left, saved.files, outDir, keyword, pageSize, page.next, read', isAlnum);
    SearchFromTargets(saved.left, saved.files, outDir, keyword, pageSize, page.next, read', isAlnum);
    FoundBehind(outDir, read, page, rest.pages[0], saved.targets, rest.targets, isAlnum);
    var step := Run(saved.outcome, saved.files, saved.left, [RequestFor(keyword, pageSize, cursor)] + saved.calls, saved.targets, saved.fetched, []);
    assert SearchFrom(script, files, outDir, keyword, pageSize, cursor, read, isAlnum) == Then(step, rest);
  }

  /** What is left of `a + b + c` after `a`, and after `a + b`. */
  lemma DropFront<T>(a: seq<T>, b: seq<T>, c: seq<T>)
    ensures (a + b + c)[|a|..] == b + c && (a + b + c)[|a + b|..] == c
  {
  }

  /** The records of a page, then those of the pages read after it. */
  lemma FoundBehind(outDir: string, read: seq<Json>, page: Json, g: seq<Json>, t1: seq<Target>, t2: seq<Target>, isAlnum: char -> bool)
    requires |read| + 1 <= |g| && g[..|read| + 1] == read + [page]
    requires StoredAs(outDir, page.results, t1, isAlnum) && |t1| == |page.results|
    requires |Results(read + [page])| <= |Results(g)|
    requires StoredAs(outDir, Results(g)[|Results(read + [page])|..], t2, isAlnum)
    ensures |Results(read)| <= |Results(g)|
    ensures StoredAs(outDir, Results(g)[|Results(read)|..], t1 + t2, isAlnum)
    ensures |Results(read + [page])| + |t2| == |Results(g)| ==> |Results(read)| + |t1 + t2| == |Results(g)|
  {
    var read' := read + [page];
    var tail := g[|read'|..];
    assert read'[..|read|] == read;
    assert g == read' + tail;
    ResultsAppend(read', tail);
    var r0 := Results(read);
    var later := Results(tail);
    assert Results(read') == r0 + page.results;
    assert Results(g) == r0 + page.results + later;
    DropFront(r0, page.results, later);
    StoredAsAppend(outDir, page.results, t1, later, t2, isAlnum);
  }

  /** One keyword's search adds the files of the records it handled and
      downloads exactly `Fetched` of them. */
  lemma {:induction false} SearchFromProgress(script: seq<Response>, files: map<string, Json>, outDir: string, keyword: string, pageSize: int,
                                              cursor: Option<string>, read: seq<Json>, isAlnum: char -> bool)
    ensures var run := SearchFrom(script, files, outDir, keyword, pageSize, cursor, read, isAlnum);
      Progress(files, run.files, Paths(run.targets), Paths(run.fetched))
    decreases |script|
  {
    var e := Transact(script, 0, DefaultMaxRetries);
    if e.result.Err? {
      assert Paths([]) == [];
    } else {
      var page := e.result.value.body;
      var saved := SaveRecords(script[e.attempts..], files, outDir, page.results, isAlnum);
      SaveRecordsProgress(script[e.attempts..], files, outDir, page.results, isAlnum);
      if saved.outcome.Done? && Truthy(page.next) {
        var rest := SearchFrom(saved.left, saved.files, outDir, keyword, pageSize, page.next, read + [page], isAlnum);
        SearchFromProgress(saved.left, saved.files, outDir, keyword, pageSize, page.next, read + [page], isAlnum);
        ProgressThen(files, saved.files, rest.files, Paths(saved.targets), Paths(rest.targets), Paths(saved.fetched), Paths(rest.fetched));
        PathsAppend(saved.targets, rest.targets);
        PathsAppend(saved.fetched, rest.fetched);
      }
    }
  }

  /** The records of every keyword's pages, keyword after keyword. */
  function AllResults(searched: seq<seq<Json>>): seq<CaseMeta> {
    if searched == [] then [] else Results(searched[0]) + AllResults(searched[1..])
  }

  /** A whole run adds the files of the records it handled, keeps every file
      that was there, and downloads exactly `Fetched` of them. */
  lemma {:induction false} MainRunProgress(script: seq<Response>, files: map<string, Json>, outDir: string, keywords: seq<string>, isAlnum: char -> bool)
    ensures var run := MainRun(script, files, outDir, keywords, isAlnum);
      Progress(files, run.files, Paths(run.targets), Paths(run.fetched))
    decreases |keywords|
  {
    if keywords == [] {
      assert Paths([]) == [];
    } else {
      var first := SearchFrom(script, files, outDir, keywords[0], DefaultPageSize, None, [], isAlnum);
      SearchFromProgress(script, files, outDir, keywords[0], DefaultPageSize, None, [], isAlnum);
      if first.outcome.Done? {
        var rest := MainRun(first.left, first.files, outDir, keywords[1..], isAlnum);
        MainRunProgress(first.left, first.files, outDir, keywords[1..], isAlnum);
        ProgressThen(files, first.files, rest.files, Paths(first.targets), Paths(rest.targets), Paths(first.fetched), Paths(rest.fetched));
        PathsAppend(first.targets, rest.targets);
        PathsAppend(first.fetched, rest.fetched);
      }
    }
  }

  lemma AllResultsCons(g: seq<Json>, rest: seq<seq<Json>>)
    ensures AllResults([g] + rest) == Results(g) + AllResults(rest)
  {
    assert ([g] + rest)[0] == g && ([g] + rest)[1..] == rest;
  }

  /** A complete run of pages in front of complete runs of pages. */
  lemma AllCompleteCons(g: seq<Json>, rest: seq<seq<Json>>)
    requires Complete(g) && forall i :: 0 <= i < |rest| ==> Complete(rest[i])
    ensures forall i :: 0 <= i < |[g] + rest| ==> Complete(([g] + rest)[i])
  {
    forall i | 0 <= i < |[g] + rest| ensures Complete(([g] + rest)[i]) {
      if i > 0 {
        assert ([g] + rest)[i] == rest[i - 1];
      }
    }
  }

  /** A whole run searches the keywords in order, one list of pages each; a
      run that completes read a complete run of pages for every keyword. */
  lemma {:induction false} MainRunSearched(script: seq<Response>, files: map<string, Json>, outDir: string, keywords: seq<string>, isAlnum: char -> bool)
    ensures var run := MainRun(script, files, outDir, keywords, isAlnum);
      && |run.pages| <= |keywords|
      && (run.outcome.Done? ==> |run.pages| == |keywords| && forall i :: 0 <= i < |run.pages| ==> Complete(run.pages[i]))
    decreases |keywords|
  {
    if keywords != [] {
      var first := SearchFrom(script, files, outDir, keywords[0], DefaultPageSize, None, [], isAlnum);
      SearchFromPages(script, files, outDir, keywords[0], DefaultPageSize, None, [], isAlnum);
      if first.outcome.Done? {
        var rest := MainRun(first.left, first.files, outDir, keywords[1..], isAlnum);
        MainRunSearched(first.left, first.files, outDir, keywords[1..], isAlnum);
        var g := first.pages[0];
        assert first.pages == [g];
        assert MainRun(script, files, outDir, keywords, isAlnum) == Then(first, rest);
        if rest.outcome.Done? {
          AllCompleteCons(g, rest.pages);
        }
      }
    }
  }

  /** A whole run handles the records the searches yield, keyword after
      keyword and page after page, each stored under its target; a run that
      completes handles every one of them. */
  lemma {:induction false} MainRunTargets(script: seq<Response>, files: map<string, Json>, outDir: string, keywords: seq<string>, isAlnum: char -> bool)
    ensures var run := MainRun(script, files, outDir, keywords, isAlnum);
      && StoredAs(outDir, AllResults(run.pages), run.targets, isAlnum)
      && (run.outcome.Done? ==> |run.targets| == |AllResults(run.pages)|)
    decreases |keywords|
  {
    if keywords != [] {
      var first := SearchFrom(script, files, outDir, keywords[0], DefaultPageSize, None, [], isAlnum);
      SearchFromTargets(script, files, outDir, keywords[0], DefaultPageSize, None, [], isAlnum);
      var g := first.pages[0];
      assert first.pages == [g];
      assert Results([]) == [] && Results(g)[0..] == Results(g);
      if first.outcome.Aborted? {
        assert MainRun(script, files, outDir, keywords, isAlnum) == first;
        AllResultsCons(g, []);
        assert Results(g) + [] == Results(g);
      } else {
        var rest := MainRun(first.left, first.files, outDir, keywords[1..], isAlnum);
        MainRunTargets(first.left, first.files, outDir, keywords[1..], isAlnum);
        assert MainRun(script, files, outDir, keywords, isAlnum) == Then(first, rest);
        AllResultsCons(g, rest.pages);
        StoredAsAppend(outDir, Results(g), first.targets, AllResults(rest.pages), rest.targets, isAlnum);
      }
    }
  }

  // ---------------------------------------------------------------------
  // One turn of each loop, as a step of the reference

  /** Handling the first of the records left moves the run one record on. */
  lemma SaveRecordsStep(acc: Run, script: seq<Response>, files: map<string, Json>, outDir: string, records: seq<CaseMeta>, isAlnum: char -> bool)
    requires records != []
    ensures var step := SaveStep(script, files, outDir, records[0], isAlnum);
      var whole := Then(acc, SaveRecords(script, files, outDir, records, isAlnum));
      && (step.outcome.Aborted? ==> whole == Then(acc, step))
      && (step.outcome.Done? ==> whole == Then(Then(acc, step), SaveRecords(step.left, step.files, outDir, records[1..], isAlnum)))
  {
    var step := SaveStep(script, files, outDir, records[0], isAlnum);
    if step.outcome.Done? {
      ThenThen(acc, step, SaveRecords(step.left, step.files, outDir, records[1..], isAlnum));
    }
  }

  /** Reading the page `cursor` leads to and saving its records moves a
      keyword's search one page on; `left` are the replies the page's `get`
      left behind. */
  lemma SearchFromStep(acc: Run, script: seq<Response>, files: map<string, Json>, outDir: string, keyword: string, pageSize: int,
                       cursor: Option<string>, read: seq<Json>, isAlnum: char -> bool, page: Json, left: seq<Response>)
    requires var e := Transact(script, 0, DefaultMaxRetries);
      e.result.Ok? && e.result.value.body == page && left == script[e.attempts..]
    ensures var saved := SaveRecords(left, files, outDir, page.results, isAlnum);
      var step := Run(saved.outcome, saved.files, saved.left, [RequestFor(keyword, pageSize, cursor)] + saved.calls, saved.targets, saved.fetched, []);
      var whole := Then(acc, SearchFrom(script, files, outDir, keyword, pageSize, cursor, read, isAlnum));
      && (saved.outcome.Aborted? || !Truthy(page.next) ==> whole == Then(acc, step.(pages := [read + [page]])))
      && (saved.outcome.Done? && Truthy(page.next) ==>
            whole == Then(Then(acc, step), SearchFrom(saved.left, saved.files, outDir, keyword, pageSize, page.next, read + [page], isAlnum)))
  {
    var saved := SaveRecords(left, files, outDir, page.results, isAlnum);
    var step := Run(saved.outcome, saved.files, saved.left, [RequestFor(keyword, pageSize, cursor)] + saved.calls, saved.targets, saved.fetched, []);
    if saved.outcome.Done? && Truthy(page.next) {
      ThenThen(acc, step, SearchFrom(saved.left, saved.files, outDir, keyword, pageSize, page.next, read + [page], isAlnum));
    }
  }

  /** A page whose `get` fails ends the keyword's search, and the run. */
  lemma SearchFromFails(acc: Run, script: seq<Response>, files: map<string, Json>, outDir: string, keyword: string, pageSize: int,
                        cursor: Option<string>, read: seq<Json>, isAlnum: char -> bool)
    requires Transact(script, 0, DefaultMaxRetries).result.Err?
    ensures var e := Transact(script, 0, DefaultMaxRetries);
      var run := Then(acc, SearchFrom(script, files, outDir, keyword, pageSize, cursor, read, isAlnum));
      && run.outcome == Aborted(e.result.failure) && run.files == files && run.left == script[e.attempts..]
      && run.calls == acc.calls + [RequestFor(keyword, pageSize, cursor)]
  {
  }

  /** Searching the first of the keywords left moves the run one keyword on. */
  lemma MainRunStep(acc: Run, script: seq<Response>, files: map<string, Json>, outDir: string, keywords: seq<string>, isAlnum: char -> bool)
    requires keywords != []
    ensures var first := SearchFrom(script, files, outDir, keywords[0], DefaultPageSize, None, [], isAlnum);
      var whole := Then(acc, MainRun(script, files, outDir, keywords, isAlnum));
      && (first.outcome.Aborted? ==> whole == Then(acc, first))
      && (first.outcome.Done? ==> whole == Then(Then(acc, first), MainRun(first.left, first.files, outDir, keywords[1..], isAlnum)))
  {
    var first := SearchFrom(script, files, outDir, keywords[0], DefaultPageSize, None, [], isAlnum);
    if first.outcome.Done? {
      ThenThen(acc, first, MainRun(first.left, first.files, outDir, keywords[1..], isAlnum));
    }
  }

  // ---------------------------------------------------------------------
  // The loop itself

  /** What the records of a page do, all at once. */
  lemma SavedPage(script: seq<Response>, files: map<string, Json>, outDir: string, records: seq<CaseMeta>, isAlnum: char -> bool)
    ensures var s := SaveRecords(script, files, outDir, records, isAlnum);
      && Progress(files, s.files, Paths(s.targets), Paths(s.fetched))
      && StoredAs(outDir, records, s.targets, isAlnum)
      && (s.outcome.Done? <==> |s.targets| == |records|)
      && CallsFit(outDir, records, s, isAlnum)
  {
    SaveRecordsProgress(script, files, outDir, records, isAlnum);
    SaveRecordsTargets(script, files, outDir, records, isAlnum);
    SaveRecordsCalls(script, files, outDir, records, isAlnum);
  }

  /** What a whole run does, all at once. */
  lemma RanAll(script: seq<Response>, files: map<string, Json>, outDir: string, keywords: seq<string>, isAlnum: char -> bool)
    ensures var s := MainRun(script, files, outDir, keywords, isAlnum);
      && Progress(files, s.files, Paths(s.targets), Paths(s.fetched))
      && StoredAs(outDir, AllResults(s.pages), s.targets, isAlnum)
      && (s.outcome.Done? ==> |s.pages| == |keywords| && |s.targets| == |AllResults(s.pages)|)
      && (s.outcome.Done? ==> forall i :: 0 <= i < |s.pages| ==> Complete(s.pages[i]))
  {
    MainRunProgress(script, files, outDir, keywords, isAlnum);
    MainRunTargets(script, files, outDir, keywords, isAlnum);
    MainRunSearched(script, files, outDir, keywords, isAlnum);
  }

  /** One turn of `main`'s inner loop: name the record's file, skip it if it
      exists, otherwise download the case and write its JSON there. `raw` is
      the download's reply, when there is one. */
  method SaveCase(downloader: CaseDownloader, disk: Disk, outDir: string, meta: CaseMeta, isAlnum: char -> bool)
    returns (r: Outcome, ghost raw: Result<Response>)
    modifies downloader.client, disk
    ensures var s := SaveStep(old(downloader.client.network), old(disk.files), outDir, meta, isAlnum);
      && r == s.outcome && disk.files == s.files && downloader.client.network == s.left
      && downloader.client.calls == old(downloader.client.calls) + s.calls
    ensures var t := TargetOf(outDir, meta, isAlnum);
      && (t.Ok? && t.value.path !in old(disk.files) ==>
            downloader.client.Answered(Call(t.value.url, NoParams), DefaultMaxRetries, raw))
      && (t.Err? || t.value.path in old(disk.files) ==> unchanged(downloader.client))
  {
    raw := Err(NoResponse);
    match TargetOf(outDir, meta, isAlnum)
    case Err(f) =>
      r := Aborted(f);
    case Ok(target) =>
      var present := disk.Exists(target.path);
      if present {
        r := Done;
        return;
      }
      var fullCase;
      fullCase, raw := downloader.Download(target.url);
      match fullCase
      case Err(f) =>
        r := Aborted(f);
      case Ok(doc) =>
        disk.Write(target.path, doc);
        r := Done;
  }

  /** The inner loop over one page's records, in order, until one aborts
      the run. */
  method SavePage(downloader: CaseDownloader, disk: Disk, outDir: string, records: seq<CaseMeta>, isAlnum: char -> bool)
    returns (r: Outcome)
    modifies downloader.client, disk
    ensures var s := SaveRecords(old(downloader.client.network), old(disk.files), outDir, records, isAlnum);
      && r == s.outcome && disk.files == s.files && downloader.client.network == s.left
      && downloader.client.calls == old(downloader.client.calls) + s.calls
  {
    var client := downloader.client;
    ghost var whole := SaveRecords(client.network, disk.files, outDir, records, isAlnum);
    ghost var acc := Idle(disk.files, client.network);
    var rest := records;
    while rest != []
      invariant whole == Then(acc, SaveRecords(client.network, disk.files, outDir, rest, isAlnum))
      invariant client.calls == old(client.calls) + acc.calls
    {
      var meta := rest[0];
      ghost var step := SaveStep(client.network, disk.files, outDir, meta, isAlnum);
      SaveRecordsStep(acc, client.network, disk.files, outDir, rest, isAlnum);
      ghost var raw;
      r, raw := SaveCase(downloader, disk, outDir, meta, isAlnum);
      CallsThen(old(client.calls), acc, step.calls, [], step);
      if r.Aborted? {
        return;
      }
      acc := Then(acc, step);
      rest := rest[1..];
    }
    r := Done;
  }

  /** `main`'s loop over one keyword: the search's generator interleaved with
      the downloads, each page requested only after every record of the page
      before it was saved. */
  method SaveKeyword(searcher: CaseSearcher, downloader: CaseDownloader, disk: Disk, outDir: string, keyword: string, isAlnum: char -> bool)
    returns (r: Outcome)
    requires searcher.client == downloader.client
    modifies searcher.client, disk
    ensures var s := SearchFrom(old(searcher.client.network), old(disk.files), outDir, keyword, searcher.pageSize, None, [], isAlnum);
      && r == s.outcome && disk.files == s.files && searcher.client.network == s.left
      && searcher.client.calls == old(searcher.client.calls) + s.calls
  {
    var client := searcher.client;
    var cursor: Option<string> := None;
    ghost var read: seq<Json> := [];
    ghost var whole := SearchFrom(client.network, disk.files, outDir, keyword, searcher.pageSize, None, [], isAlnum);
    ghost var acc := Idle(disk.files, client.network);
    while true
      invariant whole == Then(acc, SearchFrom(client.network, disk.files, outDir, keyword, searcher.pageSize, cursor, read, isAlnum))
      invariant client.calls == old(client.calls) + acc.calls
      decreases |client.network|
    {
      ghost var script := client.network;
      ghost var files := disk.files;
      var page, raw := searcher.FetchPage(keyword, cursor);
      if page.Err? {
        SearchFromFails(acc, script, files, outDir, keyword, searcher.pageSize, cursor, read, isAlnum);
        r := Aborted(page.failure);
        return;
      }
      var js := page.value;
      ghost var left := client.network;
      ghost var saved := SaveRecords(left, files, outDir, js.results, isAlnum);
      ghost var step := Run(saved.outcome, saved.files, saved.left,
                            [RequestFor(keyword, searcher.pageSize, cursor)] + saved.calls, saved.targets, saved.fetched, []);
      SearchFromStep(acc, script, files, outDir, keyword, searcher.pageSize, cursor, read, isAlnum, js, left);
      r := SavePage(downloader, disk, outDir, js.results, isAlnum);
      CallsThen(old(client.calls), acc, [RequestFor(keyword, searcher.pageSize, cursor)], saved.calls, step);
      if r.Aborted? || !Truthy(js.next) {
        return;
      }
      acc := Then(acc, step);
      read := read + [js];
      cursor := js.next;
    }
  }

  /** `main`: one client, searcher and downloader over the token and the
      server's replies, then every keyword in turn until something aborts
      the run. `calls` are the client's `get` calls. */
  method DownloadCases(keywords: seq<string>, outDir: string, token: string, network: seq<Response>, disk: Disk, isAlnum: char -> bool)
    returns (r: Outcome, ghost calls: seq<Call>)
    modifies disk
    ensures var s := MainRun(network, old(disk.files), outDir, keywords, isAlnum);
      r == s.outcome && disk.files == s.files && calls == s.calls
    ensures var s := MainRun(network, old(disk.files), outDir, keywords, isAlnum);
      && Progress(old(disk.files), s.files, Paths(s.targets), Paths(s.fetched))
      && StoredAs(outDir, AllResults(s.pages), s.targets, isAlnum)
      && (s.outcome.Done? ==> |s.pages| == |keywords| && |s.targets| == |AllResults(s.pages)|)
      && (s.outcome.Done? ==> forall i :: 0 <= i < |s.pages| ==> Complete(s.pages[i]))
  {
    var client := new ApiClient(ApiBase, token, network);
    var searcher := new CaseSearcher(client, DefaultPageSize);
    var downloader := new CaseDownloader(client);
    ghost var whole := MainRun(network, disk.files, outDir, keywords, isAlnum);
    ghost var acc := Idle(disk.files, network);
    var rest := keywords;
    while rest != []
      invariant fresh(client) && searcher.client == client && downloader.client == client
      invariant searcher.pageSize == DefaultPageSize
      invariant whole == Then(acc, MainRun(client.network, disk.files, outDir, rest, isAlnum))
      invariant client.calls == acc.calls
    {
      var keyword := rest[0];
      ghost var first := SearchFrom(client.network, disk.files, outDir, keyword, DefaultPageSize, None, [], isAlnum);
      MainRunStep(acc, client.network, disk.files, outDir, rest, isAlnum);
      r := SaveKeyword(searcher, downloader, disk, outDir, keyword, isAlnum);
      if r.Aborted? {
        calls := client.calls;
        RanAll(network, old(disk.files), outDir, keywords, isAlnum);
        return;
      }
      acc := Then(acc, first);
      rest := rest[1..];
    }
    r := Done;
    calls := client.calls;
    RanAll(network, old(disk.files), outDir, keywords, isAlnum);
  }
}
