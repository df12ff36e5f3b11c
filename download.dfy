/**
 * The download pipeline of one track: the scratch directory the files land
 * in, the try-until-success loop over the search strategies of
 * `download_from_youtube`, and the single-track endpoint `download_track`.
 *
 * The search-and-download library is an oracle: for the k-th strategy and
 * its search string it reports what happened and which names of the form
 * `%(title)s.%(ext)s` it wrote into the directory.
 */
module Download {
  import opened Text
  import opened Query
  import opened Playlist

  /** What one strategy's search and download did. */
  datatype Attempt =
    | Raised(written: set<string>)       // an exception; the names written before it was raised
    | NoResults                          // no info, no `entries`, or an empty entry list
    | NoneAvailable                      // every entry is None
    | Downloaded(written: set<string>)   // the first available entry was downloaded

  /** The oracle: strategy index and search string to outcome. */
  type Provider = (nat, string) -> Attempt

  function Written(a: Attempt): set<string> {
    if a.Raised? || a.Downloaded? then a.written else {}
  }

  /** The fixed part of the output template: `{prefix}_{uid}_`, or `{uid}_` without a prefix. */
  function NamePrefix(prefix: string, uid: string): string {
    if prefix != "" then prefix + "_" + uid + "_" else uid + "_"
  }

  /** The output template `{prefix}_{uid}_%(title)s.%(ext)s` applied to one written part. */
  function OutputName(prefix: string, uid: string, part: string): string {
    NamePrefix(prefix, uid) + part
  }

  function OnDisk(prefix: string, uid: string, parts: set<string>): set<string> {
    set p | p in parts :: OutputName(prefix, uid, p)
  }

  /** The glob `*.mp3`. */
  predicate IsMp3(name: string) {
    |name| >= 4 && name[|name| - 4..] == ".mp3"
  }

  function Mp3s(files: set<string>): set<string>
  {
    set f | f in files && IsMp3(f)
  }

  /** Adding an mp3 file adds exactly it to what the glob matches. */
  lemma Mp3sAddOne(files: set<string>, name: string)
    requires IsMp3(name)
    ensures Mp3s(files + {name}) == Mp3s(files) + {name}
  {}

  /** The file template keeps the extension: an mp3 part lands as an mp3 file. */
  lemma OutputNameKeepsExtension(prefix: string, uid: string, part: string)
    requires IsMp3(part)
    ensures IsMp3(OutputName(prefix, uid, part))
  {
    var name := OutputName(prefix, uid, part);
    assert name[|name| - 4..] == part[|part| - 4..];
  }

  /** With a prefix, the on-disk name starts with the prefix and an underscore. */
  lemma OutputNameWithPrefix(prefix: string, uid: string, part: string)
    requires prefix != ""
    ensures StartsWith(OutputName(prefix, uid, part), prefix + "_")
  {
    StartsWithAppend(prefix + "_", uid + "_" + part);
    assert OutputName(prefix, uid, part) == (prefix + "_") + (uid + "_" + part);
  }

  /** Under one prefix and uid, distinct parts land under distinct names. */
  lemma OutputNameInjective(prefix: string, uid: string, p1: string, p2: string)
    requires OutputName(prefix, uid, p1) == OutputName(prefix, uid, p2)
    ensures p1 == p2
  {
    var head := NamePrefix(prefix, uid);
    assert p1 == (head + p1)[|head|..];
  }

  // ---------------------------------------------------------------------
  // The scratch directory
  // ---------------------------------------------------------------------

  /** A download directory: whether it exists and the names of the files in it. */
  class Workspace {
    const id: string
    var present: bool
    var files: set<string>

    /** `mkdir` of a fresh uuid-named directory. */
    constructor (id: string)
      ensures this.id == id && present && files == {}
    {
      this.id := id;
      present := true;
      files := {};
    }

    /** Files written into the directory by a download. */
    method Write(names: set<string>)
      requires present
      modifies this
      ensures present && files == old(files) + names
    {
      files := files + names;
    }

    /** `shutil.rmtree`, whose failure the server ignores. */
    method Remove()
      modifies this
      ensures !present && files == {}
    {
      present := false;
      files := {};
    }
  }

  // ---------------------------------------------------------------------
  // The strategy loop
  // ---------------------------------------------------------------------

  /** One run of the loop: the strategy list, the oracle, the file prefix and the uid of this call. */
  datatype Job = Job(plan: seq<string>, provider: Provider, prefix: string, uid: string)

  /** The directory after the k-th strategy, started from `files`. */
  function AfterAttempt(job: Job, files: set<string>, k: nat): set<string>
    requires k < |job.plan|
  {
    files + OnDisk(job.prefix, job.uid, Written(job.provider(k, job.plan[k])))
  }

  /** The k-th strategy returns True: it downloaded an entry and then `*.mp3` matches something. */
  predicate AttemptSucceeds(job: Job, files: set<string>, k: nat)
    requires k < |job.plan|
  {
    job.provider(k, job.plan[k]).Downloaded? && Mp3s(AfterAttempt(job, files, k)) != {}
  }

  /** The outcome of the loop: the returned flag, the directory afterwards, how many strategies ran. */
  datatype Run = Run(success: bool, files: set<string>, tried: nat)

  /** The loop from strategy `i` on, with the directory holding `files`. */
  function Resolve(job: Job, files: set<string>, i: nat): Run
    requires i <= |job.plan|
    decreases |job.plan| - i
  {
    if i == |job.plan| then Run(false, files, i)
    else if AttemptSucceeds(job, files, i) then Run(true, AfterAttempt(job, files, i), i + 1)
    else Resolve(job, AfterAttempt(job, files, i), i + 1)
  }

  /** The directory after strategies `i` up to `k - 1` have all run, started from `files`. */
  function After(job: Job, files: set<string>, i: nat, k: nat): set<string>
    requires i <= k <= |job.plan|
    decreases k - i
  {
    if i == k then files else After(job, AfterAttempt(job, files, i), i + 1, k)
  }

  /**
   * The loop tries the strategies in order from `i` and stops at the first
   * that returns True; it returns False only when every remaining strategy
   * ran and none returned True. The directory afterwards holds exactly what
   * the tried strategies wrote.
   */
  lemma {:induction false} StopsAtFirstSuccess(job: Job, files: set<string>, i: nat)
    requires i <= |job.plan|
    ensures var r := Resolve(job, files, i);
      && i <= r.tried <= |job.plan| && r.files == After(job, files, i, r.tried)
      && (forall k :: i <= k < r.tried - 1 ==> !AttemptSucceeds(job, After(job, files, i, k), k))
      && (r.success ==> i < r.tried && AttemptSucceeds(job, After(job, files, i, r.tried - 1), r.tried - 1))
      && (!r.success ==> r.tried == |job.plan|
                         && forall k :: i <= k < |job.plan| ==> !AttemptSucceeds(job, After(job, files, i, k), k))
    decreases |job.plan| - i
  {
    if i < |job.plan| {
      var next := AfterAttempt(job, files, i);
      if AttemptSucceeds(job, files, i) {
        assert After(job, files, i, i + 1) == next;
      } else {
        StopsAtFirstSuccess(job, next, i + 1);
        forall k | i < k <= |job.plan|
          ensures After(job, files, i, k) == After(job, next, i + 1, k)
        {}
      }
    }
  }

  /** Files are only added: the loop never removes one, and a True result leaves an mp3 behind. */
  lemma {:induction false} ResolveKeepsFiles(job: Job, files: set<string>, i: nat)
    requires i <= |job.plan|
    ensures files <= Resolve(job, files, i).files
    ensures Resolve(job, files, i).success ==> Mp3s(Resolve(job, files, i).files) != {}
    decreases |job.plan| - i
  {
    if i < |job.plan| && !AttemptSucceeds(job, files, i) {
      ResolveKeepsFiles(job, AfterAttempt(job, files, i), i + 1);
    }
  }

  /** Every file the loop adds starts with this call's prefix and uid. */
  lemma {:induction false} ResolveAddsOwnNames(job: Job, files: set<string>, i: nat)
    requires i <= |job.plan|
    ensures forall f :: f in Resolve(job, files, i).files && f !in files ==>
              StartsWith(f, NamePrefix(job.prefix, job.uid))
    decreases |job.plan| - i
  {
    if i < |job.plan| {
      var next := AfterAttempt(job, files, i);
      forall f | f in next && f !in files
        ensures StartsWith(f, NamePrefix(job.prefix, job.uid))
      {
        var p :| p in Written(job.provider(i, job.plan[i])) && f == OutputName(job.prefix, job.uid, p);
        StartsWithAppend(NamePrefix(job.prefix, job.uid), p);
      }
      if !AttemptSucceeds(job, files, i) {
        ResolveAddsOwnNames(job, next, i + 1);
      }
    }
  }

  /**
   * The success check only asks whether some mp3 is present: in a directory
   * that already holds one, the first strategy that downloads anything
   * returns True, even when it wrote no file at all.
   */
  lemma SharedDirectorySuccess(job: Job, files: set<string>)
    requires Mp3s(files) != {}
    requires |job.plan| > 0 && job.provider(0, job.plan[0]) == Downloaded({})
    ensures Resolve(job, files, 0) == Run(true, files, 1)
  {
    var f :| f in Mp3s(files);
    assert f in Mp3s(AfterAttempt(job, files, 0));
    assert OnDisk(job.prefix, job.uid, {}) == {};
  }

  /** When every strategy raises after writing the same names, the loop returns False with those names on disk. */
  lemma {:induction false} AllRaised(job: Job, files: set<string>, i: nat, w: set<string>)
    requires i <= |job.plan|
    requires forall k :: 0 <= k < |job.plan| ==> job.provider(k, job.plan[k]) == Raised(w)
    ensures Resolve(job, files, i) ==
              Run(false, if i < |job.plan| then files + OnDisk(job.prefix, job.uid, w) else files, |job.plan|)
    decreases |job.plan| - i
  {
    if i < |job.plan| {
      var next := AfterAttempt(job, files, i);
      AllRaised(job, next, i + 1, w);
      assert next + OnDisk(job.prefix, job.uid, w) == next;
    }
  }

  /**
   * `download_from_youtube(query, output_path, file_prefix)`: build the
   * strategy list, then run the strategies in order until one leaves an mp3
   * in the directory.
   */
  method DownloadFromYoutube(ws: Workspace, query: string, prefix: string, uid: string, provider: Provider)
    returns (ok: bool, tried: nat)
    requires ws.present
    modifies ws
    ensures ws.present
    ensures Run(ok, ws.files, tried) == Resolve(Job(Plan(query), provider, prefix, uid), old(ws.files), 0)
  {
    var cleaned := CleanQuery(query);
    var queries := [Search5 + cleaned, Search3 + cleaned, Search5 + query];
    var parts := Split(query);
    if |parts| > 2 {
      var half := Join(parts[..|parts| / 2]);
      queries := queries + [Search5 + half];
    }
    queries := queries + [Search5 + cleaned + " official audio", Search3 + cleaned + " official"];
    assert queries == Plan(query);

    ghost var job := Job(queries, provider, prefix, uid);
    var i := 0;
    while i < |queries|
      invariant 0 <= i <= |queries|
      invariant ws.present
      invariant Resolve(job, ws.files, i) == Resolve(job, old(ws.files), 0)
    {
      ghost var before := ws.files;
      var attempt := provider(i, queries[i]);
      match attempt {
        case Raised(written) =>
          ws.Write(OnDisk(prefix, uid, written));
        case NoResults =>
          assert OnDisk(prefix, uid, {}) == {};
        case NoneAvailable =>
          assert OnDisk(prefix, uid, {}) == {};
        case Downloaded(written) =>
          ws.Write(OnDisk(prefix, uid, written));
          if Mp3s(ws.files) != {} {
            return true, i + 1;
          }
      }
      assert ws.files == AfterAttempt(job, before, i);
      i := i + 1;
    }
    return false, |queries|;
  }

  // ---------------------------------------------------------------------
  // download_track
  // ---------------------------------------------------------------------

  datatype DownloadRequest = DownloadRequest(trackName: string, trackArtist: string, trackId: string)

  /** The file handed to the client: the directory, the name on disk, the name offered for saving. */
  datatype FileResponse = FileResponse(directory: string, file: string, filename: string, mediaType: string)

  function TrackQuery(req: DownloadRequest): string {
    req.trackName + " " + req.trackArtist
  }

  function NotDownloadedDetail(name: string): string {
    "Não foi possível encontrar/baixar '" + name + "' no YouTube. A música pode estar bloqueada ou indisponível."
  }

  /** The loop as `download_track` runs it: no prefix, a fresh empty directory. */
  function TrackRun(req: DownloadRequest, uid: string, provider: Provider): Run {
    Resolve(Job(Plan(TrackQuery(req)), provider, "", uid), {}, 0)
  }

  /**
   * `download_track`: a fresh directory; when the loop returns False the
   * directory is removed and 404 is raised; otherwise one of the mp3 files
   * is returned, offered as "name - artist.mp3", and the directory stays
   * until the deferred cleanup. The server's second 404, for a True result
   * with no mp3 present, cannot happen (`TrackSuccessLeavesMp3`).
   */
  method DownloadTrack(req: DownloadRequest, downloadId: string, uid: string, provider: Provider)
    returns (r: Result<FileResponse, HttpError>, ws: Workspace)
    ensures fresh(ws) && ws.id == downloadId
    ensures !TrackRun(req, uid, provider).success ==> r == Err(HttpError(404, NotDownloadedDetail(req.trackName)))
    ensures TrackRun(req, uid, provider).success ==> r.Ok?
    ensures r.Err? ==> r.error.status == 404 && !ws.present && ws.files == {}
    ensures r.Ok? ==>
              && TrackRun(req, uid, provider).success
              && ws.present && ws.files == TrackRun(req, uid, provider).files
              && r.value.directory == downloadId
              && r.value.file in Mp3s(ws.files)
              && r.value.filename == req.trackName + " - " + req.trackArtist + ".mp3"
              && r.value.mediaType == "audio/mpeg"
  {
    ws := new Workspace(downloadId);
    var query := TrackQuery(req);
    var success, _ := DownloadFromYoutube(ws, query, "", uid, provider);
    if !success {
      ws.Remove();
      return Err(HttpError(404, NotDownloadedDetail(req.trackName))), ws;
    }
    var mp3Files := Mp3s(ws.files);
    if mp3Files == {} {
      // the second 404 of the server: unreachable after a True result
      TrackSuccessLeavesMp3(req, uid, provider);
      assert false;
    } else {
      var filePath :| filePath in mp3Files;
      r := Ok(FileResponse(downloadId, filePath, req.trackName + " - " + req.trackArtist + ".mp3", "audio/mpeg"));
    }
  }

  /**
   * The second 404 of `download_track` cannot happen: a True result always
   * leaves an mp3 in the directory, so the request either fails with the
   * first 404 or returns a file.
   */
  lemma TrackSuccessLeavesMp3(req: DownloadRequest, uid: string, provider: Provider)
    ensures TrackRun(req, uid, provider).success ==> Mp3s(TrackRun(req, uid, provider).files) != {}
  {
    ResolveKeepsFiles(Job(Plan(TrackQuery(req)), provider, "", uid), {}, 0);
  }
}
