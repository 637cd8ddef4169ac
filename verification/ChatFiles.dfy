/** Chat attachments as multipart uploads: how a file is cut into parts, and what overlapping calls that
    each read the record, talk to object storage and write the record back can do to it. */
module ChatFiles {
  import opened Options

  type Byte(==, !new)
  type Etag(==, !new)
  type Call(==, !new)
  type PartNumber = n: int | 1 <= n witness 1

  const MIN_PART := 5 * 1024 * 1024
  const MAX_PART := 5 * 1024 * 1024 * 1024
  const MAX_PARTS := 10_000
  const MAX_CHAT_FILE_BYTES := MAX_PART * MAX_PARTS

  function CeilDiv(a: nat, b: nat): (r: nat)
    requires b > 0
    ensures r * b >= a && (r > 0 ==> (r - 1) * b < a)
  {
    (a + b - 1) / b
  }

  function PartSize(size: nat): (r: nat)
    ensures r >= MIN_PART && r * MAX_PARTS >= size
    ensures r == MIN_PART || (r - 1) * MAX_PARTS < size
  {
    var share := CeilDiv(size, MAX_PARTS);
    if share < MIN_PART then MIN_PART else share
  }

  function PartCount(size: nat): nat {
    CeilDiv(size, PartSize(size))
  }

  /** Where part `k + 1` starts in the file. */
  function Offset(size: nat, k: nat): nat {
    k * PartSize(size)
  }

  /** The length the service demands of a part; not positive past the end of the file. */
  function Expected(size: nat, number: PartNumber): int {
    Min(PartSize(size), size - Offset(size, number - 1))
  }

  /** The cut is legal for object storage: at most 10,000 parts, none over 5 GiB. */
  lemma PartsAreLegal(size: nat)
    requires size <= MAX_CHAT_FILE_BYTES
    ensures PartCount(size) <= MAX_PARTS && PartSize(size) <= MAX_PART
  {
    if PartCount(size) > MAX_PARTS {
      MulMonotone(MAX_PARTS, PartCount(size) - 1, PartSize(size));
    }
  }

  /** The numbers that name a part are exactly 1 to the part count; every part but the last has the full
      size, at least 5 MiB; and each part ends where the next one starts, the last at the file's end. */
  lemma PartsAreConsecutive(size: nat, number: PartNumber)
    ensures Expected(size, number) > 0 <==> number <= PartCount(size)
    ensures number < PartCount(size) ==> Expected(size, number) == PartSize(size) >= MIN_PART
    ensures number <= PartCount(size) ==>
      Offset(size, number - 1) + Expected(size, number) == if number < PartCount(size) then Offset(size, number) else size
  {
    var p, c := PartSize(size), PartCount(size);
    assert (number - 1) * p + p == number * p;
    if number < c {
      MulMonotone(number, c - 1, p);
    } else if number > c {
      MulMonotone(c, number - 1, p);
    }
  }

  lemma MulMonotone(a: nat, b: nat, p: nat)
    requires a <= b
    ensures a * p <= b * p
  {
    assert (b - a) * p >= 0;
  }

  /** Object storage's view of a finished upload: the parts one after another. */
  function Assemble(bodies: seq<seq<Byte>>): seq<Byte> {
    if bodies == [] then [] else Assemble(bodies[..|bodies| - 1]) + bodies[|bodies| - 1]
  }

  ghost predicate Fitting(size: nat, bodies: seq<seq<Byte>>) {
    |bodies| <= PartCount(size) && forall k :: 0 <= k < |bodies| ==> |bodies[k]| == Expected(size, k + 1)
  }

  function Covered(size: nat, parts: nat): nat {
    if parts < PartCount(size) then Offset(size, parts) else size
  }

  /** Bodies of the expected lengths tile the file from its start: each is found exactly at its own
      offset, and together they reach the whole size exactly when there are as many as the part count. */
  lemma {:induction false} PartsPartition(size: nat, bodies: seq<seq<Byte>>)
    requires Fitting(size, bodies)
    ensures |Assemble(bodies)| == Covered(size, |bodies|)
    ensures forall k :: 0 <= k < |bodies| ==> Located(Assemble(bodies), Offset(size, k), bodies[k])
  {
    var n := |bodies|;
    if n > 0 {
      var front := bodies[..n - 1];
      PartsPartition(size, front);
      PartsAreConsecutive(size, n);
      forall k | 0 <= k < n - 1
        ensures Located(Assemble(bodies), Offset(size, k), bodies[k])
      {
        assert bodies[k] == front[k];
        LocatedExtends(Assemble(front), bodies[n - 1], Offset(size, k), front[k]);
      }
      LocatedLast(Assemble(front), bodies[n - 1]);
    }
  }

  ghost predicate Located(whole: seq<Byte>, at: nat, body: seq<Byte>) {
    at + |body| <= |whole| && whole[at..at + |body|] == body
  }

  lemma LocatedExtends(whole: seq<Byte>, tail: seq<Byte>, at: nat, body: seq<Byte>)
    requires Located(whole, at, body)
    ensures Located(whole + tail, at, body)
  {
    assert (whole + tail)[at..at + |body|] == whole[at..at + |body|];
  }

  lemma LocatedLast(whole: seq<Byte>, body: seq<Byte>)
    ensures Located(whole + body, |whole|, body)
  {
  }

  lemma CoveredIsWhole(size: nat, parts: nat)
    requires parts <= PartCount(size)
    ensures Covered(size, parts) == size <==> parts == PartCount(size)
  {
    if parts < PartCount(size) {
      PartsAreConsecutive(size, parts + 1);
    }
  }

  /** An entry of the record's parts array; assigning past the end of such an array leaves holes. */
  datatype Part = Part(number: PartNumber, etag: Etag) | Hole

  datatype Record = Record(parts: seq<Part>, completed: bool)

  function Assign(parts: seq<Part>, i: nat, part: Part): seq<Part> {
    if i < |parts| then parts[i := part] else parts + seq(i - |parts|, _ => Hole) + [part]
  }

  /** A call between its two visits to the record: what it read, and how far it got. */
  datatype Flight =
    | Sending(record: Record, number: PartNumber)
    | Sent(record: Record, number: PartNumber, etag: Etag)
    | Completing(record: Record)
    | Assembled(record: Record)

  /** The bytes of a part's body, chunk after chunk. */
  function Received(chunks: seq<seq<Byte>>): seq<Byte> {
    Assemble(chunks)
  }

  function Bodies(log: map<Etag, seq<Byte>>, parts: seq<Part>): seq<seq<Byte>> {
    seq(|parts|, k requires 0 <= k < |parts| => if parts[k].Part? && parts[k].etag in log then log[parts[k].etag] else [])
  }

  /** Every entry is in its place, without holes, and stands for content of its part's length. */
  ghost predicate Sound(size: nat, log: map<Etag, seq<Byte>>, parts: seq<Part>) {
    && |parts| <= PartCount(size)
    && forall k :: 0 <= k < |parts| ==>
         parts[k].Part? && parts[k].number == k + 1 && parts[k].etag in log && |log[parts[k].etag]| == Expected(size, k + 1)
  }

  /** The stored file is these parts, and they are all of them. */
  ghost predicate IsFile(size: nat, log: map<Etag, seq<Byte>>, file: Option<seq<Byte>>, parts: seq<Part>) {
    |parts| == PartCount(size) && file == Some(Assemble(Bodies(log, parts)))
  }

  ghost predicate FlightSound(size: nat, log: map<Etag, seq<Byte>>, file: Option<seq<Byte>>, flight: Flight) {
    && Sound(size, log, flight.record.parts) && !flight.record.completed
    && match flight
       case Sending(record, number) => number <= Min(|record.parts| + 1, PartCount(size))
       case Sent(record, number, etag) =>
         && number <= Min(|record.parts| + 1, PartCount(size))
         && etag in log && |log[etag]| == Expected(size, number)
       case Completing(record) => |record.parts| == PartCount(size)
       case Assembled(record) => IsFile(size, log, file, record.parts)
  }

  /** One upload: the saved record, object storage (parts by number, content by ETag, the finished
      file), and the calls in progress. */
  datatype State = State(
    size: nat, record: Record, open: bool, stored: map<PartNumber, Etag>, log: map<Etag, seq<Byte>>, file: Option<seq<Byte>>,
    flights: map<Call, Flight>)
  {
    /** uploadPart up to its request to object storage. */
    function Begin(call: Call, number: int, length: int): State {
      if record.completed || number < 1 || number > MAX_PARTS || number > |record.parts| + 1 then
        this
      else if Expected(size, number) <= 0 || length != Expected(size, number) then
        this
      else
        this.(flights := flights[call := Sending(record, number)])
    }

    function Send(call: Call, chunks: seq<seq<Byte>>, etag: Etag): State {
      if call !in flights || !flights[call].Sending? then
        this
      else
        var flight := flights[call];
        if !open || |Received(chunks)| != Expected(size, flight.number) then
          this.(flights := flights - {call})
        else
          this.(stored := stored[flight.number := etag], log := log[etag := Received(chunks)],
                flights := flights[call := Sent(flight.record, flight.number, etag)])
    }

    function Save(call: Call): State {
      if call !in flights || !flights[call].Sent? then
        this
      else
        var flight := flights[call];
        this.(record := flight.record.(parts := Assign(flight.record.parts, flight.number - 1, Part(flight.number, flight.etag))),
              flights := flights - {call})
    }

    function BeginComplete(call: Call): State {
      if record.completed || |record.parts| != PartCount(size) then
        this
      else
        this.(flights := flights[call := Completing(record)])
    }

    /** Object storage assembles an open upload when every listed part is its current one. */
    predicate Listed(parts: seq<Part>) {
      forall k :: 0 <= k < |parts| ==>
        parts[k].Part? && parts[k].number in stored && stored[parts[k].number] == parts[k].etag && parts[k].etag in log
    }

    function SendComplete(call: Call): State {
      if call !in flights || !flights[call].Completing? then
        this
      else
        var saved := flights[call].record;
        if size == 0 then
          this.(file := Some([]), flights := flights[call := Assembled(saved)])
        else if !open || !Listed(saved.parts) then
          this.(flights := flights - {call})
        else
          this.(open := false, file := Some(Assemble(Bodies(log, saved.parts))), flights := flights[call := Assembled(saved)])
    }

    function SaveComplete(call: Call): State {
      if call !in flights || !flights[call].Assembled? then
        this
      else
        this.(record := flights[call].record.(completed := true), flights := flights - {call})
    }

    /** The process serving the call dies. */
    function Crash(call: Call): State {
      this.(flights := flights - {call})
    }

    function Apply(op: Op): State {
      match op
      case Begin(call, number, length) => Begin(call, number, length)
      case Send(call, chunks, etag) => Send(call, chunks, etag)
      case Save(call) => Save(call)
      case BeginComplete(call) => BeginComplete(call)
      case SendComplete(call) => SendComplete(call)
      case SaveComplete(call) => SaveComplete(call)
      case Crash(call) => Crash(call)
    }

    /** Calls are named apart, and an ETag stands for one content only. */
    predicate Enabled(op: Op) {
      match op
      case Begin(call, _, _) => call !in flights
      case BeginComplete(call) => call !in flights
      case Send(_, chunks, etag) => etag in log ==> log[etag] == Received(chunks)
      case _ => true
    }

    ghost predicate Inv() {
      && Sound(size, log, record.parts)
      && (record.completed ==> IsFile(size, log, file, record.parts))
      && (file.Some? ==> size == 0 || !open)
      && forall call :: call in flights ==> FlightSound(size, log, file, flights[call])
    }
  }

  datatype Op =
    | Begin(call: Call, number: int, length: int)
    | Send(call: Call, chunks: seq<seq<Byte>>, etag: Etag)
    | Save(call: Call)
    | BeginComplete(call: Call)
    | SendComplete(call: Call)
    | SaveComplete(call: Call)
    | Crash(call: Call)

  function Created(size: nat): State {
    State(size, Record([], false), size > 0, map[], map[], None, map[])
  }

  function Run(s: State, ops: seq<Op>): State {
    if ops == [] then s else Run(s, ops[..|ops| - 1]).Apply(ops[|ops| - 1])
  }

  ghost predicate IsRun(s: State, ops: seq<Op>) {
    ops != [] ==> IsRun(s, ops[..|ops| - 1]) && Run(s, ops[..|ops| - 1]).Enabled(ops[|ops| - 1])
  }

  ghost predicate Extends(log: map<Etag, seq<Byte>>, more: map<Etag, seq<Byte>>) {
    forall e :: e in log ==> e in more && more[e] == log[e]
  }

  lemma SoundExtends(size: nat, log: map<Etag, seq<Byte>>, more: map<Etag, seq<Byte>>, parts: seq<Part>)
    requires Extends(log, more) && Sound(size, log, parts)
    ensures Sound(size, more, parts) && Bodies(more, parts) == Bodies(log, parts)
  {
  }

  lemma FlightExtends(size: nat, log: map<Etag, seq<Byte>>, more: map<Etag, seq<Byte>>, file: Option<seq<Byte>>, flight: Flight)
    requires Extends(log, more) && FlightSound(size, log, file, flight)
    ensures FlightSound(size, more, file, flight)
  {
    SoundExtends(size, log, more, flight.record.parts);
  }

  lemma SavedIsSound(size: nat, log: map<Etag, seq<Byte>>, file: Option<seq<Byte>>, flight: Flight)
    requires flight.Sent? && FlightSound(size, log, file, flight)
    ensures Sound(size, log, Assign(flight.record.parts, flight.number - 1, Part(flight.number, flight.etag)))
  {
  }

  /** A flight that has not finished the file is not disturbed by a file appearing. */
  lemma FlightSoundAfterFile(size: nat, log: map<Etag, seq<Byte>>, file: Option<seq<Byte>>, later: Option<seq<Byte>>, flight: Flight)
    requires FlightSound(size, log, file, flight) && (flight.Assembled? ==> later == file)
    ensures FlightSound(size, log, later, flight)
  {
  }

  lemma NoPartsInEmptyFile(log: map<Etag, seq<Byte>>, parts: seq<Part>)
    requires |parts| == PartCount(0)
    ensures Assemble(Bodies(log, parts)) == []
  {
    PartsAreConsecutive(0, 1);
  }

  lemma SendKeeps(s: State, call: Call, chunks: seq<seq<Byte>>, etag: Etag)
    requires s.Inv() && s.Enabled(Op.Send(call, chunks, etag))
    ensures s.Send(call, chunks, etag).Inv()
  {
    if call in s.flights && s.flights[call].Sending? && s.open && |Received(chunks)| == Expected(s.size, s.flights[call].number) {
      var more := s.log[etag := Received(chunks)];
      SoundExtends(s.size, s.log, more, s.record.parts);
      forall c | c in s.flights
        ensures FlightSound(s.size, more, s.file, s.flights[c])
      {
        FlightExtends(s.size, s.log, more, s.file, s.flights[c]);
      }
    }
  }

  /** Any empty file's list is empty, so completing it again changes nothing for anyone. */
  lemma EmptyFlightSound(log: map<Etag, seq<Byte>>, file: Option<seq<Byte>>, flight: Flight)
    requires FlightSound(0, log, file, flight)
    ensures FlightSound(0, log, Some([]), flight)
    ensures flight.Completing? ==> FlightSound(0, log, Some([]), Assembled(flight.record))
  {
    if flight.Assembled? || flight.Completing? {
      NoPartsInEmptyFile(log, flight.record.parts);
    }
  }

  lemma EmptyCompleteKeeps(s: State, call: Call)
    requires s.Inv() && call in s.flights && s.flights[call].Completing? && s.size == 0
    ensures s.SendComplete(call).Inv()
  {
    forall c | c in s.flights
      ensures FlightSound(0, s.log, Some([]), s.flights[c])
      ensures s.flights[c].Completing? ==> FlightSound(0, s.log, Some([]), Assembled(s.flights[c].record))
    {
      EmptyFlightSound(s.log, s.file, s.flights[c]);
    }
    if s.record.completed {
      NoPartsInEmptyFile(s.log, s.record.parts);
    }
  }

  lemma AssembleKeeps(s: State, call: Call)
    requires s.Inv() && call in s.flights && s.flights[call].Completing? && s.size > 0
    ensures s.SendComplete(call).Inv()
  {
    if s.open && s.Listed(s.flights[call].record.parts) {
      var file := Some(Assemble(Bodies(s.log, s.flights[call].record.parts)));
      forall c | c in s.flights
        ensures FlightSound(s.size, s.log, file, s.flights[c])
      {
        FlightSoundAfterFile(s.size, s.log, s.file, file, s.flights[c]);
      }
      assert FlightSound(s.size, s.log, file, Assembled(s.flights[call].record));
    }
  }

  /** Every step, by any call, at any point of any other call, keeps the invariant. */
  lemma StepKeeps(s: State, op: Op)
    requires s.Inv() && s.Enabled(op)
    ensures s.Apply(op).Inv()
  {
    match op
    case Begin(call, number, length) =>
      if number >= 1 {
        PartsAreConsecutive(s.size, number);
      }
    case Send(call, chunks, etag) => SendKeeps(s, call, chunks, etag);
    case Save(call) =>
      if call in s.flights && s.flights[call].Sent? {
        SavedIsSound(s.size, s.log, s.file, s.flights[call]);
      }
    case BeginComplete(call) =>
    case SendComplete(call) =>
      if call in s.flights && s.flights[call].Completing? {
        if s.size == 0 {
          EmptyCompleteKeeps(s, call);
        } else {
          AssembleKeeps(s, call);
        }
      }
    case SaveComplete(call) =>
    case Crash(call) =>
  }

  /** Under any interleaving of uploads, retries, completions and crashes. */
  lemma {:induction false} RunKeeps(size: nat, ops: seq<Op>)
    requires IsRun(Created(size), ops)
    ensures Run(Created(size), ops).Inv() && Run(Created(size), ops).size == size
  {
    if ops != [] {
      RunKeeps(size, ops[..|ops| - 1]);
      StepKeeps(Run(Created(size), ops[..|ops| - 1]), ops[|ops| - 1]);
    }
  }

  lemma BodiesFit(size: nat, log: map<Etag, seq<Byte>>, parts: seq<Part>)
    requires Sound(size, log, parts)
    ensures Fitting(size, Bodies(log, parts))
  {
    forall k | 0 <= k < |parts|
      ensures |Bodies(log, parts)[k]| == Expected(size, k + 1)
    {
      assert Bodies(log, parts)[k] == log[parts[k].etag];
    }
  }

  lemma WholeFromBodies(size: nat, bodies: seq<seq<Byte>>)
    requires Fitting(size, bodies) && |bodies| == PartCount(size)
    ensures |Assemble(bodies)| == size
    ensures forall k :: 0 <= k < |bodies| ==> Located(Assemble(bodies), Offset(size, k), bodies[k])
  {
    PartsPartition(size, bodies);
  }

  lemma FileIsWhole(size: nat, log: map<Etag, seq<Byte>>, file: Option<seq<Byte>>, parts: seq<Part>)
    requires Sound(size, log, parts) && IsFile(size, log, file, parts)
    ensures |file.value| == size
    ensures forall k :: 0 <= k < |parts| ==> Located(file.value, Offset(size, k), log[parts[k].etag])
  {
    var bodies := Bodies(log, parts);
    BodiesFit(size, log, parts);
    WholeFromBodies(size, bodies);
    forall k | 0 <= k < |parts|
      ensures Located(file.value, Offset(size, k), log[parts[k].etag])
    {
      assert bodies[k] == log[parts[k].etag];
    }
  }

  /** A completed record's file has exactly the announced size, and each listed part's content stands at
      that part's own offset in it: every byte is covered, and covered once. */
  lemma CompletedFileIsWhole(size: nat, ops: seq<Op>)
    requires IsRun(Created(size), ops) && Run(Created(size), ops).record.completed
    ensures var s := Run(Created(size), ops);
            && s.file.Some? && |s.file.value| == size
            && |s.record.parts| == PartCount(size)
            && forall k :: 0 <= k < |s.record.parts| ==>
                 && s.record.parts[k].Part? && s.record.parts[k].etag in s.log
                 && Located(s.file.value, Offset(size, k), s.log[s.record.parts[k].etag])
  {
    RunKeeps(size, ops);
    var s := Run(Created(size), ops);
    FileIsWhole(size, s.log, s.file, s.record.parts);
  }

  /** A completed record stays completed through every step but one: the save of an upload that read
      the record before it was completed. */
  lemma StaysCompleted(s: State, op: Op)
    requires s.Inv() && s.Enabled(op) && s.record.completed
    ensures s.Apply(op).record.completed <==> !(op.Save? && op.call in s.flights && s.flights[op.call].Sent?)
  {
    assert op.Save? && op.call in s.flights ==> FlightSound(s.size, s.log, s.file, s.flights[op.call]);
  }

  /** No upload is left that has sent its part and not saved the record yet. */
  ghost predicate NothingSent(s: State) {
    forall call :: call in s.flights ==> !s.flights[call].Sent?
  }

  lemma SendingIsNotEmpty(size: nat, number: PartNumber)
    requires number <= PartCount(size)
    ensures size > 0
  {
    PartsAreConsecutive(size, number);
  }

  /** Once completed, object storage takes no more parts. */
  lemma CompletedIsClosed(s: State, call: Call)
    requires s.Inv() && s.record.completed && call in s.flights && s.flights[call].Sending?
    ensures !s.open
  {
    assert FlightSound(s.size, s.log, s.file, s.flights[call]);
    SendingIsNotEmpty(s.size, s.flights[call].number);
  }

  lemma ClosedSend(s: State, call: Call, chunks: seq<seq<Byte>>, etag: Etag)
    requires s.Inv() && s.record.completed && NothingSent(s)
    ensures NothingSent(s.Send(call, chunks, etag))
  {
    if call in s.flights && s.flights[call].Sending? {
      CompletedIsClosed(s, call);
    }
  }

  lemma OnlySendSends(s: State, op: Op)
    requires NothingSent(s) && !op.Send?
    ensures NothingSent(s.Apply(op))
  {
  }

  lemma CompletedStep(s: State, op: Op)
    requires s.Inv() && s.Enabled(op) && s.record.completed && NothingSent(s)
    ensures s.Apply(op).record.completed && NothingSent(s.Apply(op))
  {
    assert s.Apply(op).record.completed by {
      StaysCompleted(s, op);
    }
    if op.Send? {
      ClosedSend(s, op.call, op.chunks, op.etag);
    } else {
      OnlySendSends(s, op);
    }
  }

  lemma {:induction false} CompletedRun(s: State, ops: seq<Op>)
    requires s.Inv() && IsRun(s, ops) && s.record.completed && NothingSent(s)
    ensures Run(s, ops).Inv() && Run(s, ops).record.completed && NothingSent(Run(s, ops))
  {
    if ops != [] {
      CompletedRun(s, ops[..|ops| - 1]);
      StepKeeps(Run(s, ops[..|ops| - 1]), ops[|ops| - 1]);
      CompletedStep(Run(s, ops[..|ops| - 1]), ops[|ops| - 1]);
    }
  }

  ghost predicate CompletedIn(s: State, ops: seq<Op>) {
    IsRun(s, ops) ==> Run(s, ops).record.completed
  }

  /** A completed record stays completed in every run from here if and only if nothing is left that has sent
      its part and not saved: uploads that have only begun are refused by the closed upload. */
  lemma CompletedForGoodIff(s: State)
    requires s.Inv() && s.record.completed
    ensures (forall ops :: CompletedIn(s, ops)) <==> NothingSent(s)
  {
    if NothingSent(s) {
      forall ops
        ensures CompletedIn(s, ops)
      {
        if IsRun(s, ops) {
          CompletedRun(s, ops);
        }
      }
    } else {
      var call :| call in s.flights && s.flights[call].Sent?;
      var ops := [Op.Save(call)];
      assert ops[..0] == [];
      assert IsRun(s, []) && Run(s, []) == s;
      StaysCompleted(s, Op.Save(call));
      assert !CompletedIn(s, ops);
    }
  }

  ghost predicate Lost(s: State) {
    && s.size > 0 && !s.open && !s.record.completed
    && forall call :: call in s.flights ==> !s.flights[call].Assembled? && !s.flights[call].record.completed
  }

  /** And once such a save has hidden a finished file, nothing brings it back: object storage has closed
      the upload, so no later call completes the record again. */
  lemma {:induction false} LostForGood(s: State, ops: seq<Op>)
    requires Lost(s)
    ensures Lost(Run(s, ops))
  {
    if ops != [] {
      LostForGood(s, ops[..|ops| - 1]);
    }
  }

  lemma LateSaveHides(s: State, call: Call)
    requires s.Inv() && s.size > 0 && s.record.completed && call in s.flights && s.flights[call].Sent?
    requires forall c :: c in s.flights ==> !s.flights[c].Assembled?
    ensures s.file.Some? && Lost(s.Save(call))
  {
    assert FlightSound(s.size, s.log, s.file, s.flights[call]);
    forall c | c in s.flights
      ensures !s.flights[c].record.completed
    {
      assert FlightSound(s.size, s.log, s.file, s.flights[c]);
    }
  }

  lemma Continue(s: State, ops: seq<Op>, t: State, op: Op, u: State) returns (more: seq<Op>)
    requires IsRun(s, ops) && Run(s, ops) == t && t.Enabled(op) && u == t.Apply(op)
    ensures IsRun(s, more) && Run(s, more) == u
  {
    more := ops + [op];
    assert more[..|more| - 1] == ops;
  }

  lemma OnePart(body: seq<Byte>, etag: Etag)
    requires 0 < |body| <= MIN_PART
    ensures PartCount(|body|) == 1 && Expected(|body|, 1) == |body| && Assemble([body]) == body
    ensures Assemble(Bodies(map[etag := body], [Part(1, etag)])) == body
  {
    assert PartSize(|body|) == MIN_PART;
    assert [body][..0] == [] && Assemble([]) == [];
    assert Bodies(map[etag := body], [Part(1, etag)]) == [body];
  }

  /** A file of one part, stored and listed, with these calls in progress. */
  function Small(body: seq<Byte>, etag: Etag, flights: map<Call, Flight>): State {
    State(|body|, Record([Part(1, etag)], false), true, map[1 := etag], map[etag := body], None, flights)
  }

  lemma SmallUploaded(call: Call, body: seq<Byte>, etag: Etag) returns (ops: seq<Op>)
    requires 0 < |body| <= MIN_PART
    ensures IsRun(Created(|body|), ops) && Run(Created(|body|), ops) == Small(body, etag, map[])
  {
    OnePart(body, etag);
    var s0, s3 := Created(|body|), Small(body, etag, map[]);
    var s1 := s0.(flights := map[call := Sending(s0.record, 1)]);
    var s2 := s3.(record := s0.record, flights := map[call := Sent(s0.record, 1, etag)]);
    ops := [];
    ops := Continue(s0, ops, s0, Op.Begin(call, 1, |body|), s1);
    ops := Continue(s0, ops, s1, Op.Send(call, [body], etag), s2);
    assert s2.flights - {call} == map[];
    ops := Continue(s0, ops, s2, Op.Save(call), s3);
  }

  lemma SmallRetried(first: Call, retry: Call, body: seq<Byte>, etag: Etag) returns (ops: seq<Op>)
    requires 0 < |body| <= MIN_PART
    ensures IsRun(Created(|body|), ops)
    ensures Run(Created(|body|), ops) == Small(body, etag, map[retry := Sent(Small(body, etag, map[]).record, 1, etag)])
  {
    OnePart(body, etag);
    ops := SmallUploaded(first, body, etag);
    var s0, s3 := Created(|body|), Small(body, etag, map[]);
    var s4 := Small(body, etag, map[retry := Sending(s3.record, 1)]);
    ops := Continue(s0, ops, s3, Op.Begin(retry, 1, |body|), s4);
    ops := Continue(s0, ops, s4, Op.Send(retry, [body], etag), Small(body, etag, map[retry := Sent(s3.record, 1, etag)]));
  }

  /** It does happen: a small file, whose part is retried while the file is being completed. */
  lemma LateSaveHappens(first: Call, retry: Call, finish: Call, body: seq<Byte>, etag: Etag) returns (ops: seq<Op>)
    requires retry != finish && 0 < |body| <= MIN_PART
    ensures IsRun(Created(|body|), ops)
    ensures Run(Created(|body|), ops).file == Some(body) && Lost(Run(Created(|body|), ops))
  {
    OnePart(body, etag);
    ops := SmallRetried(first, retry, body, etag);
    var s0, s5 := Created(|body|), Run(Created(|body|), ops);
    var full := s5.record;
    var s6 := s5.(flights := map[retry := Sent(full, 1, etag), finish := Completing(full)]);
    ops := Continue(s0, ops, s5, Op.BeginComplete(finish), s6);
    var s7 := s6.(open := false, file := Some(body), flights := map[retry := Sent(full, 1, etag), finish := Assembled(full)]);
    ops := Continue(s0, ops, s6, Op.SendComplete(finish), s7);
    var s8 := s7.(record := full.(completed := true), flights := map[retry := Sent(full, 1, etag)]);
    assert s7.flights - {finish} == s8.flights;
    ops := Continue(s0, ops, s7, Op.SaveComplete(finish), s8);
    var s9 := s8.(record := full, flights := map[]);
    assert s8.flights - {retry} == map[];
    ops := Continue(s0, ops, s8, Op.Save(retry), s9);
  }

  lemma {:induction false} AssembleGrows(chunks: seq<seq<Byte>>, i: nat)
    requires i <= |chunks|
    ensures |Assemble(chunks[..i])| <= |Assemble(chunks)|
  {
    if i < |chunks| {
      AssembleGrows(chunks[..|chunks| - 1], i);
      assert chunks[..|chunks| - 1][..i] == chunks[..i];
    } else {
      assert chunks[..i] == chunks;
    }
  }

  /** When an uploaded part is taken, by a call nobody else interferes with. */
  ghost predicate Takes(s: State, number: int, length: int, body: seq<Byte>) {
    && !s.record.completed && s.open && 1 <= number <= Min(|s.record.parts| + 1, PartCount(s.size))
    && length == |body| == Expected(s.size, number)
  }

  ghost function Taken(s: State, number: PartNumber, body: seq<Byte>, etag: Etag): State {
    s.(record := Record(Assign(s.record.parts, number - 1, Part(number, etag)), s.record.completed),
       stored := s.stored[number := etag], log := s.log[etag := body])
  }

  lemma UploadedAlone(s: State, call: Call, number: int, length: int, chunks: seq<seq<Byte>>, etag: Etag)
    requires s.flights == map[] && s.size <= MAX_CHAT_FILE_BYTES
    ensures s.Begin(call, number, length).Send(call, chunks, etag).Save(call) ==
            if Takes(s, number, length, Assemble(chunks)) then Taken(s, number, Assemble(chunks), etag) else s
  {
    PartsAreLegal(s.size);
    if number >= 1 {
      PartsAreConsecutive(s.size, number);
    }
    var t := s.Begin(call, number, length);
    if t != s {
      assert t.flights == map[call := Sending(s.record, number)];
      assert t.flights - {call} == map[];
      var u := t.Send(call, chunks, etag);
      assert u.flights - {call} == map[];
    }
  }

  ghost predicate Agrees(s: State) {
    forall k :: 0 <= k < |s.record.parts| ==> s.record.parts[k].Part? && (k + 1) in s.stored && s.stored[k + 1] == s.record.parts[k].etag
  }

  lemma TakenKeeps(s: State, number: int, chunks: seq<seq<Byte>>, etag: Etag)
    requires s.Inv() && s.flights == map[] && Agrees(s) && Takes(s, number, |Assemble(chunks)|, Assemble(chunks))
    requires etag in s.log ==> s.log[etag] == Assemble(chunks)
    ensures Taken(s, number, Assemble(chunks), etag).Inv() && Agrees(Taken(s, number, Assemble(chunks), etag))
  {
    var more := s.log[etag := Assemble(chunks)];
    SoundExtends(s.size, s.log, more, s.record.parts);
    SavedIsSound(s.size, more, s.file, Sent(s.record, number, etag));
    var t := Taken(s, number, Assemble(chunks), etag);
    assert t.record.parts == Assign(s.record.parts, number - 1, Part(number, etag));
    assert Sound(s.size, more, t.record.parts);
    forall k | 0 <= k < |t.record.parts|
      ensures t.record.parts[k].Part? && (k + 1) in t.stored && t.stored[k + 1] == t.record.parts[k].etag
    {
      if k != number - 1 {
        assert t.record.parts[k] == s.record.parts[k];
      }
    }
  }

  ghost function Finished(s: State): State {
    s.(record := s.record.(completed := true), open := false, file := Some(Assemble(Bodies(s.log, s.record.parts))))
  }

  lemma CompletedAlone(s: State, call: Call)
    requires s.Inv() && s.flights == map[] && Agrees(s) && (s.open <==> s.size > 0 && !s.record.completed)
    ensures s.BeginComplete(call).SendComplete(call).SaveComplete(call) ==
            if !s.record.completed && |s.record.parts| == PartCount(s.size) then Finished(s) else s
  {
    var t := s.BeginComplete(call);
    if t != s {
      assert t.flights == map[call := Completing(s.record)];
      if s.size == 0 {
        NoPartsInEmptyFile(s.log, s.record.parts);
      }
      var u := t.SendComplete(call);
      assert u.flights - {call} == map[];
    }
  }

  /** The record as the service keeps it, one call at a time. */
  class ChatFile {
    const size: nat
    var parts: seq<Part>
    var completed: bool
    var open: bool
    var stored: map<PartNumber, Etag>
    var log: map<Etag, seq<Byte>>
    var file: Option<seq<Byte>>

    ghost function View(): State
      reads this
    {
      State(size, Record(parts, completed), open, stored, log, file, map[])
    }

    ghost predicate Valid()
      reads this
    {
      size <= MAX_CHAT_FILE_BYTES && View().Inv() && Agrees(View()) && (open <==> size > 0 && !completed)
    }

    constructor (size: nat)
      requires size <= MAX_CHAT_FILE_BYTES
      ensures Valid() && View() == Created(size)
    {
      this.size, parts, completed, open, stored, log, file := size, [], false, size > 0, map[], map[], None;
    }

    /** The bytes of a part's body, cut off as soon as they exceed what the part may hold. */
    method Bounded(chunks: seq<seq<Byte>>, expected: nat) returns (body: Option<seq<Byte>>)
      ensures body == if |Assemble(chunks)| == expected then Some(Assemble(chunks)) else None
    {
      var received: seq<Byte> := [];
      for i := 0 to |chunks|
        invariant received == Assemble(chunks[..i]) && |received| <= expected
      {
        assert chunks[..i + 1][..i] == chunks[..i];
        received := received + chunks[i];
        if |received| > expected {
          AssembleGrows(chunks, i + 1);
          return None;
        }
      }
      assert chunks[..|chunks|] == chunks;
      return if |received| == expected then Some(received) else None;
    }

    /** Accepted exactly when the number continues or repeats the list and the body has the length that
        part must have; the list then differs in that one entry and has no holes. */
    method UploadPart(ghost call: Call, number: int, length: int, chunks: seq<seq<Byte>>, etag: Etag) returns (ok: bool)
      requires Valid() && (etag in log ==> log[etag] == Assemble(chunks))
      modifies this
      ensures Valid() && View() == old(View()).Begin(call, number, length).Send(call, chunks, etag).Save(call)
      ensures ok <==> old(Takes(View(), number, length, Assemble(chunks)))
    {
      UploadedAlone(View(), call, number, length, chunks, etag);
      PartsAreLegal(size);
      if completed || number < 1 || number > MAX_PARTS || number > |parts| + 1 {
        return false;
      }
      PartsAreConsecutive(size, number);
      var expected := Expected(size, number);
      if expected <= 0 || length != expected {
        return false;
      }
      var body := Bounded(chunks, expected);
      if body.None? {
        return false;
      }
      TakenKeeps(View(), number, chunks, etag);
      stored, log := stored[number := etag], log[etag := body.value];
      parts := Assign(parts, number - 1, Part(number, etag));
      return true;
    }

    /** Succeeds exactly when the list is complete; the file then has the announced size. */
    method Complete(ghost call: Call) returns (ok: bool)
      requires Valid()
      modifies this
      ensures Valid() && View() == old(View()).BeginComplete(call).SendComplete(call).SaveComplete(call)
      ensures ok <==> !old(completed) && |parts| == PartCount(size)
      ensures ok ==> completed && file.Some? && |file.value| == size
    {
      CompletedAlone(View(), call);
      if completed || |parts| != PartCount(size) {
        return false;
      }
      BodiesFit(size, log, parts);
      WholeFromBodies(size, Bodies(log, parts));
      file := Some(Assemble(Bodies(log, parts)));
      open, completed := false, true;
      return true;
    }
  }
}
