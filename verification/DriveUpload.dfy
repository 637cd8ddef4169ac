/** Delivering a recording to Google Drive through a resumable session: a chunk loop against a server
    that may store any part of a chunk, with crashes and retries in between. */
module DriveUpload {
  import opened Options

  const DRIVE_CHUNK_BYTES := 8 * 1024 * 1024

  type Byte(==, !new)

  datatype Response =
    | Incomplete(range: Option<nat>)                                   // 308, last stored byte
    | SessionGone                                                      // 404 or 410
    | Failure                                                          // any other error
    | Finished(id: bool, trashed: bool, size: nat)                     // 200 with the file's metadata

  /** One request's fate: how far the server stores, and whether it answers at all. */
  datatype Whim = Whim(stores: nat, fails: bool, gone: bool, trashed: bool, nameless: bool, reported: Option<nat>)

  predicate Obliging(whim: Whim) {
    !whim.gone && !whim.fails && !whim.nameless && !whim.trashed && whim.reported.None?
  }

  /** What the server holds once it has taken a chunk that starts at `first` up to `upto` bytes in. */
  function Kept(stored: seq<Byte>, first: nat, chunk: seq<Byte>, upto: nat): (r: seq<Byte>)
    requires first <= |stored| && upto <= |chunk|
    ensures |r| == if |stored| < first + upto then first + upto else |stored|
  {
    if |stored| < first + upto then stored + chunk[|stored| - first..upto] else stored
  }

  /** The server side of one session. It keeps a contiguous prefix, takes at least one new byte of
      every chunk it accepts, and reports the prefix in the Range of every 308. */
  class Session {
    const size: nat
    var stored: seq<Byte>

    constructor (size: nat)
      ensures this.size == size && stored == []
    {
      this.size, stored := size, [];
    }

    /** PUT of `chunk` with `Content-Range: bytes first-last/size`. The requires are what section 14.4
        of RFC 9110 and the session demand: a non-empty range inside the recording that leaves no gap, in steps of 256 KiB except for the last. */
    method Put(first: nat, last: nat, chunk: seq<Byte>, whim: Whim) returns (response: Response)
      requires first <= last < size && |chunk| == last - first + 1
      requires |chunk| <= 8 * 1024 * 1024 && (last == size - 1 || |chunk| % (256 * 1024) == 0)
      requires first <= |stored| <= size
      modifies this
      ensures |old(stored)| <= |stored| <= size
      ensures exists upto: nat | upto <= |chunk| :: stored == Kept(old(stored), first, chunk, upto)
      ensures response.Incomplete? ==> response.range == Some(|stored| - 1) && first < |stored| < size
      ensures response.Finished? ==> |stored| == size && response == Finished(!whim.nameless, whim.trashed, if whim.reported.Some? then whim.reported.value else size)
      ensures !whim.gone && !whim.fails ==> response.Incomplete? || response.Finished?
    {
      if whim.gone || (whim.fails && whim.stores == 0) {
        assert stored == Kept(stored, first, chunk, 0);
        return if whim.gone then SessionGone else Failure;
      }
      var wanted := if whim.stores == 0 then 1 else if whim.stores <= |chunk| then whim.stores else |chunk|;
      stored := Kept(stored, first, chunk, wanted);
      if whim.fails {
        return Failure;
      }
      if |stored| == size {
        return Finished(!whim.nameless, whim.trashed, if whim.reported.Some? then whim.reported.value else size);
      }
      return Incomplete(Some(|stored| - 1));
    }
  }

  datatype Result =
    | Delivered | SessionNotOpened | Halted | Crashed | IncompleteRange | Expired | ApiError | NotVerified
    | EndedWithoutFile

  /** What can go wrong on our side before each request and before each save. */
  datatype Luck = Fine | HeartbeatFails | ShortRead | CrashBeforeSave

  /** The delivery row: the session and offset that survive a crash, for a recording that never changes. */
  class Delivery {
    const recording: seq<Byte>
    var session: Session?
    var offset: nat

    /** The saved offset never passes what the server holds, and what it holds is the recording's own
        beginning; a session is only kept while something is left to send. */
    ghost predicate Consistent()
      reads this, session
    {
      session != null ==>
        && session.size == |recording|
        && offset <= |session.stored| <= |recording| && session.stored == recording[..|session.stored|]
        && (recording != [] ==> offset < |recording|)
    }

    constructor (recording: seq<Byte>)
      ensures this.recording == recording && session == null && Consistent()
    {
      this.recording, session, offset := recording, null, 0;
    }

    /** One attempt. It ends, however the server and our own side behave, and a success means the
        server holds the recording byte for byte. Without mishaps only an empty recording fails: the loop
        then never sends anything, and so never learns of a file. */
    method Upload(opens: bool, whims: nat -> Whim, luck: nat -> Luck) returns (result: Result, ghost remote: seq<Byte>, ghost answer: Option<Response>)
      requires Consistent()
      modifies this, session
      ensures Consistent() && (session == null || session == old(session) || fresh(session))
      ensures result.Delivered? ==> remote == recording && recording != []
      ensures result.Delivered? ==> answer == Some(Finished(true, false, |recording|)) && session == null && offset == |recording|
      ensures result.NotVerified? ==> answer.Some? && answer.value.Finished? && answer.value != Finished(true, false, |recording|)
      ensures result.Expired? ==> answer == Some(SessionGone) && session == null && offset == 0
      ensures result.ApiError? ==> answer == Some(Failure)
      ensures result.EndedWithoutFile? ==> recording == []
      ensures recording == [] ==> result.EndedWithoutFile? || result.SessionNotOpened?
      ensures recording != [] && (opens || old(session) != null) && (forall k: nat :: Obliging(whims(k)) && luck(k).Fine?)
              ==> result.Delivered?
    {
      var size := |recording|;
      var url := session;
      var sent := offset;
      remote, answer := [], None;
      if url == null {
        if !opens {
          return SessionNotOpened, remote, answer;
        }
        url := new Session(size);
        sent := 0;
        session, offset := url, sent;
      }
      var steps: nat := 0;
      while sent < size
        invariant url == session && (url == old(session) || fresh(url)) && sent == offset
        invariant Consistent()
        decreases size - sent
      {
        assert (forall k: nat :: Obliging(whims(k)) && luck(k).Fine?) ==> Obliging(whims(steps));
        if luck(steps).HeartbeatFails? {
          return Halted, remote, answer;
        }
        var end := Min(sent + DRIVE_CHUNK_BYTES, size) - 1;
        var chunk := recording[sent..end + 1];
        if luck(steps).ShortRead? {
          return IncompleteRange, remote, answer;
        }
        ghost var before := url.stored;
        var response := url.Put(sent, end, chunk, whims(steps));
        assert url.stored == recording[..|url.stored|] by {
          var upto: nat :| upto <= |chunk| && url.stored == Kept(before, sent, chunk, upto);
          KeptIsPrefix(recording, before, sent, end, upto);
        }
        answer := Some(response);
        match response {
          case Incomplete(range) =>
            if luck(steps).CrashBeforeSave? {
              return Crashed, remote, answer;
            }
            sent := if range.Some? then range.value + 1 else end + 1;
            offset := sent;
          case SessionGone =>
            session, offset := null, 0;
            return Expired, remote, answer;
          case Failure =>
            return ApiError, remote, answer;
          case Finished(id, trashed, reported) =>
            if !id || trashed || reported != size {
              return NotVerified, remote, answer;
            }
            remote := url.stored;
            if luck(steps).CrashBeforeSave? {
              return Crashed, remote, answer;
            }
            session, offset := null, size;
            return Delivered, remote, answer;
        }
        steps := steps + 1;
      }
      return EndedWithoutFile, remote, answer;
    }

    /** Attempt after attempt, each resuming from what the last one saved. */
    method Deliver(attempts: nat, opens: nat -> bool, whims: (nat, nat) -> Whim, luck: (nat, nat) -> Luck)
      returns (result: Result, ghost remote: seq<Byte>)
      requires Consistent()
      modifies this, session
      ensures Consistent()
      ensures result.Delivered? ==> remote == recording && recording != []
    {
      result, remote := Halted, [];
      for i := 0 to attempts
        invariant Consistent() && (session == null || session == old(session) || fresh(session))
        invariant !result.Delivered?
      {
        ghost var answer;
        result, remote, answer := Upload(opens(i), (k: nat) => whims(i, k), (k: nat) => luck(i, k));
        if result.Delivered? {
          return;
        }
      }
    }
  }

  /** Taking any part of a chunk of the recording on top of a prefix of the recording gives a prefix. */
  lemma KeptIsPrefix(recording: seq<Byte>, before: seq<Byte>, first: nat, last: nat, upto: nat)
    requires first <= last < |recording| && first <= |before| <= |recording| && before == recording[..|before|]
    requires upto <= last - first + 1
    ensures var after := Kept(before, first, recording[first..last + 1], upto);
            |after| <= |recording| && after == recording[..|after|]
  {
    if |before| < first + upto {
      var chunk := recording[first..last + 1];
      var after := before + chunk[|before| - first..upto];
      forall i | 0 <= i < |after|
        ensures after[i] == recording[i]
      {
        if |before| <= i {
          assert after[i] == chunk[|before| - first..upto][i - |before|] == chunk[i - first];
        }
      }
      assert after == recording[..|after|];
    }
  }
}
