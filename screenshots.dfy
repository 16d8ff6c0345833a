/** The screenshot store: two bounded FIFO queues of PNG file paths (the
    primary queue for problem screenshots, the extra queue for follow-up
    debugging screenshots) and the files behind them. The file system is the
    `disk` field, a map from path to file contents; an unlink the operating
    system refuses is modelled by a `failing` set of paths. */
module Screenshots {
  import opened Common
  import opened Text

  type Path = string
  type Bytes = seq<bv8>

  /** `MAX_SCREENSHOTS`: the capacity of each queue. */
  const MaxScreenshots: nat := 4

  /** `path` is a direct entry of directory `dir` (`path.join(dir, name)`). */
  predicate InDirectory(path: Path, dir: Path) {
    StartsWith(path, dir + "/") && '/' !in path[|dir| + 1..]
  }

  /** `path` is a `.png` entry of `dir`: what the start-up cleanup deletes. */
  predicate IsPngIn(path: Path, dir: Path) {
    InDirectory(path, dir) && EndsWith(path, ".png")
  }

  /** The file name given to a capture: `screenshot-<uuid>.png` in `dir`. */
  function CapturePath(dir: Path, uuid: string): (p: Path)
    requires '/' !in uuid
    ensures IsPngIn(p, dir)
  {
    var name := "screenshot-" + uuid + ".png";
    assert '/' !in name by {
      forall i | 0 <= i < |name| ensures name[i] != '/' {
        if i >= 11 && i < 11 + |uuid| {
          assert name[i] == uuid[i - 11];
        }
      }
    }
    var p := dir + "/" + name;
    assert p[..|dir| + 1] == dir + "/";
    assert p[|dir| + 1..] == name;
    assert p[|p| - 4..] == ".png";
    p
  }

  /** One capture into a queue: append the new path and, past capacity,
      drop the oldest entry. */
  function Push(q: seq<Path>, p: Path): (r: seq<Path>)
    requires |q| <= MaxScreenshots
    ensures |r| <= MaxScreenshots && |r| >= 1 && r[|r| - 1] == p
  {
    var pushed := q + [p];
    if |pushed| > MaxScreenshots then pushed[1..] else pushed
  }

  /** The entry a push into `q` evicts, if any. */
  function Evicted(q: seq<Path>): (r: Option<Path>)
    requires |q| <= MaxScreenshots
    ensures r.Some? <==> |q| == MaxScreenshots
    ensures r.Some? ==> r.value == q[0]
    ensures r.Some? ==> forall p :: Push(q, p) == q[1..] + [p]
  {
    if |q| + 1 > MaxScreenshots then Some(q[0]) else None
  }

  /** The last `MaxScreenshots` entries of a capture history. */
  function Newest(history: seq<Path>): (r: seq<Path>)
    ensures |r| == if |history| <= MaxScreenshots then |history| else MaxScreenshots
  {
    if |history| <= MaxScreenshots then history
    else history[|history| - MaxScreenshots..]
  }

  /** Past capacity, the oldest entry of a history is not among the newest. */
  lemma {:induction false} NewestDropsFront(h: seq<Path>)
    requires |h| > MaxScreenshots
    ensures Newest(h[1..]) == Newest(h)
  {
    assert h[1..][|h| - 1 - MaxScreenshots..] == h[|h| - MaxScreenshots..];
  }

  /** Several captures into the same queue, oldest first. */
  function PushAll(q: seq<Path>, captures: seq<Path>): (r: seq<Path>)
    requires |q| <= MaxScreenshots
    ensures |r| <= MaxScreenshots
    decreases |captures|
  {
    if captures == [] then q else PushAll(Push(q, captures[0]), captures[1..])
  }

  /** Strict FIFO eviction: after any number of captures, a queue holds
      exactly the most recent `MaxScreenshots` paths of its history, in
      capture order. */
  lemma {:induction false} PushAllKeepsNewest(q: seq<Path>, captures: seq<Path>)
    requires |q| <= MaxScreenshots
    ensures PushAll(q, captures) == Newest(q + captures)
    decreases |captures|
  {
    if captures == [] {
      assert q + captures == q;
    } else {
      var c := captures[0];
      var rest := captures[1..];
      PushAllKeepsNewest(Push(q, c), rest);
      var y := q + [c];
      assert q + captures == y + rest;
      if |q| == MaxScreenshots {
        assert y[1..] + rest == (y + rest)[1..];
        NewestDropsFront(y + rest);
      }
    }
  }

  /** The queue with every occurrence of `p` filtered out. */
  function Without(q: seq<Path>, p: Path): (r: seq<Path>)
    ensures p !in r
    ensures |r| <= |q|
    ensures forall x :: x in r <==> x in q && x != p
  {
    if q == [] then []
    else if q[0] == p then Without(q[1..], p)
    else [q[0]] + Without(q[1..], p)
  }

  /** The paths of `ps` whose unlink succeeds. */
  function Unlinked(ps: seq<Path>, failing: set<Path>): (r: set<Path>)
    ensures forall p :: p in r <==> p in ps && p !in failing
  {
    set p | p in ps && p !in failing
  }

  /** The files the start-up cleanup removes: every `.png` entry of either
      screenshot directory whose unlink succeeds. */
  function StaleFiles(files: set<Path>, screenshotDir: Path, extraDir: Path, failing: set<Path>): (r: set<Path>)
    ensures r <= files && r !! failing
    ensures forall p :: p in r ==> IsPngIn(p, screenshotDir) || IsPngIn(p, extraDir)
    ensures forall p :: p in files && p !in failing && (IsPngIn(p, screenshotDir) || IsPngIn(p, extraDir)) ==> p in r
  {
    set p | p in files && (IsPngIn(p, screenshotDir) || IsPngIn(p, extraDir)) && p !in failing
  }

  /** What a capture primitive delivers: nothing (it threw), or an image buffer. */
  datatype Capture = CaptureFailed | Captured(bytes: Bytes)

  /** The prefix of an RFC 2397 `data:` URL for a base64 PNG image. */
  const PngDataUrlPrefix: string := "data:image/png;base64,"

  class ScreenshotManager {
    var primary: seq<Path>
    var extra: seq<Path>
    var view: View
    var disk: map<Path, Bytes>
    const screenshotDir: Path
    const extraDir: Path

    /** Both queues are within capacity and hold only `.png` files of their
        own directory. */
    ghost predicate Valid()
      reads this
    {
      && |primary| <= MaxScreenshots
      && |extra| <= MaxScreenshots
      && (forall p :: p in primary ==> IsPngIn(p, screenshotDir))
      && (forall p :: p in extra ==> IsPngIn(p, extraDir))
    }

    /** Creates the store and wipes the `.png` files a previous run left in
        either directory; the queues start empty. */
    constructor (initialView: View, screenshotDir: Path, extraDir: Path,
                 existing: map<Path, Bytes>, failing: set<Path>)
      ensures Valid()
      ensures primary == [] && extra == [] && view == initialView
      ensures this.screenshotDir == screenshotDir && this.extraDir == extraDir
      ensures disk == existing - StaleFiles(existing.Keys, screenshotDir, extraDir, failing)
      ensures forall p :: p in disk && (IsPngIn(p, screenshotDir) || IsPngIn(p, extraDir)) ==> p in failing
    {
      primary, extra, view := [], [], initialView;
      this.screenshotDir, this.extraDir := screenshotDir, extraDir;
      disk := existing;
      new;
      var stale := StaleFiles(existing.Keys, screenshotDir, extraDir, failing);
      var pending := stale;
      while pending != {}
        invariant pending <= stale
        invariant disk == existing - (stale - pending)
        invariant primary == [] && extra == [] && view == initialView
        decreases pending
      {
        var file :| file in pending;
        disk := disk - {file};
        pending := pending - {file};
      }
    }

    function GetView(): (v: View)
      reads this
      ensures v == view
    {
      view
    }

    method SetView(v: View)
      modifies this`view
      ensures view == v
    {
      view := v;
    }

    /** Unlinks each of `ps` in turn; a refused unlink is logged and skipped. */
    method UnlinkAll(ps: seq<Path>, failing: set<Path>)
      modifies this`disk
      ensures disk == old(disk) - Unlinked(ps, failing)
    {
      var i := 0;
      while i < |ps|
        invariant 0 <= i <= |ps|
        invariant disk == old(disk) - Unlinked(ps[..i], failing)
      {
        assert ps[..i + 1] == ps[..i] + [ps[i]];
        if ps[i] !in failing {
          disk := disk - {ps[i]};
        }
        i := i + 1;
      }
      assert ps[..i] == ps;
    }

    /** `clearQueues`: unlink every queued file, then empty both queues,
        whether or not the unlinks succeeded. */
    method ClearQueues(failing: set<Path>)
      requires Valid()
      modifies this`disk, this`primary, this`extra
      ensures Valid()
      ensures primary == [] && extra == []
      ensures disk == old(disk) - Unlinked(old(primary), failing) - Unlinked(old(extra), failing)
      ensures forall p :: p in old(primary) + old(extra) && p !in failing ==> p !in disk
    {
      UnlinkAll(primary, failing);
      primary := [];
      UnlinkAll(extra, failing);
      extra := [];
    }

    /** `clearExtraScreenshotQueue`: unlink the extra queue's files and empty
        it; the primary queue is untouched. */
    method ClearExtraScreenshotQueue(failing: set<Path>)
      requires Valid()
      modifies this`disk, this`extra
      ensures Valid()
      ensures extra == [] && primary == old(primary)
      ensures disk == old(disk) - Unlinked(old(extra), failing)
    {
      UnlinkAll(extra, failing);
      extra := [];
    }

    /** `takeScreenshot` between the hide and show callbacks (which the
        session runs around it): store a non-empty capture under a fresh name
        and push it into the queue of the current view — the primary queue in
        the "queue" view, the extra queue otherwise — evicting and unlinking
        the oldest entry on overflow. A failed or empty capture, or a failed
        write, changes nothing. */
    method TakeScreenshot(capture: Capture, writeOk: bool, uuid: string, failing: set<Path>)
      returns (r: Result<Path>)
      requires Valid()
      requires '/' !in uuid
      modifies this`primary, this`extra, this`disk
      ensures Valid()
      ensures r.Ok? <==> capture.Captured? && |capture.bytes| > 0 && writeOk
      ensures r.Err? ==> primary == old(primary) && extra == old(extra) && disk == old(disk)
      ensures r.Ok? && view == Queue ==>
        && r.value == CapturePath(screenshotDir, uuid)
        && primary == Push(old(primary), r.value) && extra == old(extra)
        && disk == old(disk)[r.value := capture.bytes]
                   - (match Evicted(old(primary)) case Some(e) => Unlinked([e], failing) case None => {})
      ensures r.Ok? && view != Queue ==>
        && r.value == CapturePath(extraDir, uuid)
        && extra == Push(old(extra), r.value) && primary == old(primary)
        && disk == old(disk)[r.value := capture.bytes]
                   - (match Evicted(old(extra)) case Some(e) => Unlinked([e], failing) case None => {})
    {
      if capture.CaptureFailed? || |capture.bytes| == 0 {
        return Err("Failed to capture screenshot");
      }
      if !writeOk {
        return Err("Failed to write screenshot");
      }
      if view == Queue {
        var path := CapturePath(screenshotDir, uuid);
        disk := disk[path := capture.bytes];
        primary := primary + [path];
        if |primary| > MaxScreenshots {
          var removed := primary[0];
          assert IsPngIn(removed, screenshotDir) && removed != "";
          assert Unlinked([removed], failing) == if removed in failing then {} else {removed};
          primary := primary[1..];
          if removed != "" && removed !in failing {
            disk := disk - {removed};
          }
        }
        r := Ok(path);
      } else {
        var path := CapturePath(extraDir, uuid);
        disk := disk[path := capture.bytes];
        extra := extra + [path];
        if |extra| > MaxScreenshots {
          var removed := extra[0];
          assert IsPngIn(removed, extraDir) && removed != "";
          assert Unlinked([removed], failing) == if removed in failing then {} else {removed};
          extra := extra[1..];
          if removed != "" && removed !in failing {
            disk := disk - {removed};
          }
        }
        r := Ok(path);
      }
    }

    /** `getImagePreview`: the file as a base64 PNG `data:` URL, or "" when the
        file is missing or cannot be read. `encode` is the base64 encoder. */
    function GetImagePreview(path: Path, readOk: bool, encode: Bytes -> string): (r: string)
      reads this
      ensures r == "" <==> path !in disk || !readOk
      ensures r != "" ==> StartsWith(r, PngDataUrlPrefix) && r[|PngDataUrlPrefix|..] == encode(disk[path])
    {
      if path !in disk || !readOk then ""
      else PngDataUrlPrefix + encode(disk[path])
    }

    /** `deleteScreenshot`: unlink the file if it exists, then filter the path
        out of the queue of the current view — the primary queue in "queue",
        the extra queue in "solutions", neither in "debug". A missing file is
        not an error; a refused unlink fails and changes nothing. */
    method DeleteScreenshot(path: Path, failing: set<Path>) returns (r: Result<()>)
      requires Valid()
      modifies this`primary, this`extra, this`disk
      ensures Valid()
      ensures r.Err? <==> path in old(disk) && path in failing
      ensures r.Err? ==> primary == old(primary) && extra == old(extra) && disk == old(disk)
      ensures r.Ok? ==> disk == old(disk) - {path}
      ensures r.Ok? ==> primary == (if view == Queue then Without(old(primary), path) else old(primary))
      ensures r.Ok? ==> extra == (if view == Solutions then Without(old(extra), path) else old(extra))
    {
      if path in disk {
        if path in failing {
          return Err("Failed to delete screenshot");
        }
        disk := disk - {path};
      }
      if view == Queue {
        primary := Without(primary, path);
      } else if view == Solutions {
        extra := Without(extra, path);
      }
      r := Ok(());
    }
  }
}
