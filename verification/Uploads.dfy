/** One attempt to send one recording, as a function of everything that can go wrong. A crash
    between two calls is an attempt that stops there: what the attempt held in memory is
    gone, what it saved on disk and what the server did are not. */
module Uploads {
  import opened Prelude
  import opened Assembly
  import opened ObjectStore
  import M = Meetings

  /** The record beside the recording: which meeting, which upload, and the parts it knows are in. */
  datatype Progress = Progress(meeting: nat, uploadId: nat, size: nat, sha: nat, confirmed: seq<Confirmed>)

  predicate Holds(p: Progress, number: nat) {
    exists i :: 0 <= i < |p.confirmed| && p.confirmed[i].number == number
  }

  function Accept(p: Progress, tag: Confirmed): Progress {
    if Holds(p, tag.number) then p else p.(confirmed := p.confirmed + [tag])
  }

  /** What the vault says of the recording. */
  datatype VaultState = Owed | Uploaded

  datatype ApiError =
    | Configuration | BadCredentials | SessionExpired | Unreachable | ServerSays(code: M.Code) | Protocol

  datatype UploadError = Api(error: ApiError) | Vault | Io | Changed | Empty

  /** The errors after which the queue keeps the recording for another pass. */
  predicate IsTransient(e: UploadError) {
    match e
    case Api(error) => error.Unreachable? || error.ServerSays? || error.Protocol?
    case Io => true
    case _ => false
  }

  /** A refusal as the client reads it: 403 is taken for a session that is over. */
  function Told(code: M.Code): ApiError {
    if code == M.Forbidden then SessionExpired else ServerSays(code)
  }

  /** What this machine did, in order. `Declaring` carries the meeting if one came of it. */
  datatype Call =
    | Declaring(created: Option<nat>)
    | Starting(m: nat)
    | Resuming(m: nat)
    | Sending(uploadId: nat, number: nat)
    | Finishing(m: nat)
    | FinishAnswered(m: nat)
    | Saved(record: Progress)
    | Unread(number: nat)

  datatype Client = Client(user: M.User, rec: Recording, meetingId: Option<nat>, recordedMs: nat, pausedMs: nat)

  /** `damaged` are the segments of the recording that can no longer be decrypted. */
  datatype System = System(
    server: M.Server, disk: Option<Progress>, vault: VaultState, log: seq<Call>, damaged: set<nat>)

  /** How one network call ends. `TurnedAway` is an access token the API no longer takes, 401
      or 403 before any service runs; at the store it is a slot whose signature expired.
      `AnswerGarbled` is a success that cannot be understood. */
  datatype Net = Delivered | RequestLost | AnswerLost | AnswerGarbled | TurnedAway

  /** Everything outside the uploader's control during one attempt. `lost` become unreadable
      between weighing the recording and sending it. */
  datatype Fates = Fates(
    now: int,
    declare: Net, declareAs: nat, declareCommits: bool,
    start: Net, startStore: StoreFate, startCommits: bool,
    resume: Net, resumeStore: StoreFate,
    saveFresh: bool, saveReset: bool,
    lost: set<nat>, put: nat -> Net, save: nat -> bool,
    finish: Net, finishStore: StoreFate, deletion: StoreFate, finishCommits: bool,
    mark: bool, forget: bool)

  function Note(s: System, call: Call): System {
    s.(log := s.log + [call])
  }

  // ------------------------------------------------------------ the calls

  /** A request that runs one server transaction. */
  function Ask(env: M.Env, s: System, e: M.Event, now: int, commits: bool, net: Net)
      : (System, Result<M.Reply, ApiError>)
    requires env.partSize > 0
  {
    if net == RequestLost then (s, Err(Unreachable))
    else if net == TurnedAway then (s, Err(SessionExpired))
    else
      var o := M.Step(env, s.server, e, now, commits);
      var after := s.(server := o.server);
      if net == AnswerLost then (after, Err(Unreachable))
      else if o.reply.Err? then (after, Err(Told(o.reply.error)))
      else if net == AnswerGarbled then (after, Err(Protocol))
      else (after, Ok(o.reply.value))
  }

  /** Which meeting to send under: the record's, the job's, or one declared now. */
  function Identify(env: M.Env, c: Client, s: System, f: Fates): (System, Result<nat, ApiError>)
    requires env.partSize > 0
  {
    if s.disk.Some? then (s, Ok(s.disk.value.meeting))
    else if c.meetingId.Some? then (s, Ok(c.meetingId.value))
    else
      var (after, reply) := Ask(env, s, M.Declare(f.declareAs, c.user, false), f.now, f.declareCommits, f.declare);
      var took := f.declareAs !in s.server.db.rows && f.declareAs in after.server.db.rows;
      var noted := Note(after, Declaring(if took then Some(f.declareAs) else None));
      if reply.Err? then (noted, Err(reply.error)) else (noted, Ok(f.declareAs))
  }

  /** The record on disk, unless it is about another meeting or another recording. */
  function Resumable(s: System, m: nat, sha: nat): Option<Progress> {
    if s.disk.Some? && s.disk.value.meeting == m && s.disk.value.sha == sha then s.disk else None
  }

  function AskResume(env: M.Env, s: System, c: Client, m: nat, net: Net, fate: StoreFate): Result<Ticket, ApiError>
    requires env.partSize > 0
  {
    if net == RequestLost || net == AnswerLost then Err(Unreachable)
    else if net == TurnedAway then Err(SessionExpired)
    else if !M.Visible(s.server.db, m, c.user) then Err(ServerSays(M.NotFound))
    else
      var ticket := M.ResumeUpload(env, s.server.db.rows[m], c.user, fate);
      if ticket.Err? then Err(Told(ticket.error))
      else if net == AnswerGarbled then Err(Protocol)
      else Ok(ticket.value)
  }

  function Declaration(env: M.Env, c: Client, data: Bytes): M.Declared {
    M.Declared(|data|, env.hash(data), c.recordedMs / 1000, c.pausedMs / 1000)
  }

  /** A ticket and the record it is used with: resumed, or started and written down. */
  function Open(env: M.Env, c: Client, s: System, m: nat, data: Bytes, f: Fates)
      : (System, Result<(Ticket, Progress), UploadError>)
    requires env.partSize > 0
  {
    var existing := Resumable(s, m, env.hash(data));
    if existing.Some? then
      var noted := Note(s, Resuming(m));
      var ticket := AskResume(env, s, c, m, f.resume, f.resumeStore);
      if ticket.Err? then (noted, Err(Api(ticket.error)))
      else Align(noted, ticket.value, existing.value, f)
    else
      var noted := Note(s, Starting(m));
      var (after, reply) := Ask(env, noted, M.Start(m, c.user, Declaration(env, c, data), f.startStore),
                                f.now, f.startCommits, f.start);
      if reply.Err? then (after, Err(Api(reply.error)))
      else if !reply.value.Opened? then (after, Err(Api(Protocol)))
      else
        var ticket := reply.value.ticket;
        var begun := Progress(m, ticket.uploadId, |data|, env.hash(data), []);
        if !f.saveFresh then (after, Err(Io))
        else Align(Write(after, begun), ticket, begun, f)
  }

  function Write(s: System, p: Progress): System {
    Note(s.(disk := Some(p)), Saved(p))
  }

  /** Parts confirmed for another upload than the ticket's belong to nothing. */
  function Align(s: System, ticket: Ticket, p: Progress, f: Fates): (System, Result<(Ticket, Progress), UploadError>) {
    if ticket.uploadId == p.uploadId then (s, Ok((ticket, p)))
    else
      var reset := p.(uploadId := ticket.uploadId, confirmed := []);
      if !f.saveReset then (s, Err(Io)) else (Write(s, reset), Ok((ticket, reset)))
  }

  /** One part to the store: the tag it answers with, if the answer arrives. */
  function SendPart(s: System, uploadId: nat, number: nat, bytes: Bytes, net: Net): (System, Result<nat, ApiError>) {
    var noted := Note(s, Sending(uploadId, number));
    if net == RequestLost then (noted, Err(Unreachable))
    else if net == TurnedAway then (noted, Err(ServerSays(M.StorageUnavailable)))
    else
      var stored := PutPart(s.server.store, uploadId, number, bytes);
      if stored.None? then
        (noted, Err(if net == AnswerLost then Unreachable else ServerSays(M.StorageUnavailable)))
      else
        var after := noted.(server := M.Server(s.server.db, stored.value));
        (after, if net == AnswerLost then Err(Unreachable)
                else if net == AnswerGarbled then Err(Protocol)
                else Ok(s.server.store.nextTag))
  }

  /** More of the recording has become unreadable, for good. */
  function Decay(s: System, lost: set<nat>): System {
    s.(damaged := s.damaged + lost)
  }

  /** The parts that a pass over the recording yields now. */
  function HandedOver(c: Client, s: System, size: nat): Handout
    requires size > 0
  {
    HandoutOf([], Damaged(c.rec, s.damaged), size)
  }

  /** The loop over the slots, from slot `k + 1` on. */
  function Send(s: System, h: Handout, ticket: Ticket, p: Progress, k: nat, f: Fates)
      : (System, Result<Progress, UploadError>)
    requires k <= ticket.count
    decreases ticket.count - k
  {
    if k == ticket.count then (s, Ok(p))
    else if k >= |h.pieces| then
      if h.breaks then (Note(s, Unread(k + 1)), Err(Vault)) else (s, Err(Changed))
    else if Holds(p, k + 1) then Send(s, h, ticket, p, k + 1, f)
    else
      var (after, tag) := SendPart(s, ticket.uploadId, k + 1, h.pieces[k], f.put(k));
      if tag.Err? then (after, Err(Api(tag.error)))
      else
        var more := Accept(p, Confirmed(k + 1, tag.value));
        if !f.save(k) then (after, Err(Io))
        else Send(Write(after, more), h, ticket, more, k + 1, f)
  }

  /** Close the upload; only an answer takes the recording off what is owed. */
  function Close(env: M.Env, c: Client, s: System, m: nat, p: Progress, f: Fates): (System, Result<nat, UploadError>)
    requires env.partSize > 0
  {
    var (after, reply) := Ask(env, Note(s, Finishing(m)),
                              M.Finish(m, c.user, p.uploadId, p.confirmed, f.finishStore, f.deletion),
                              f.now, f.finishCommits, f.finish);
    if reply.Err? then (after, Err(Api(reply.error)))
    else
      var told := Note(after, FinishAnswered(m));
      if !f.mark then (told, Err(Vault))
      else (told.(vault := Uploaded, disk := if f.forget then None else told.disk), Ok(m))
  }

  /** A whole attempt: weigh, identify, open, send, close; the first error ends it. */
  function Attempt(env: M.Env, c: Client, s: System, f: Fates): (System, Result<nat, UploadError>)
    requires env.partSize > 0
  {
    var rec := Damaged(c.rec, s.damaged);
    if !Readable(rec) then (s, Err(Vault))
    else if Plain(rec) == [] then (s, Err(Empty))
    else
      var data := Plain(rec);
      var (s1, who) := Identify(env, c, s, f);
      if who.Err? then (s1, Err(Api(who.error)))
      else
        var (s2, opening) := Open(env, c, s1, who.value, data, f);
        if opening.Err? then (s2, Err(opening.error))
        else
          var (ticket, p) := opening.value;
          var again := Decay(s2, f.lost);
          var (s3, sent) := Send(again, HandedOver(c, again, Max(ticket.partSize, 1)), ticket, p, 0, f);
          if sent.Err? then (s3, Err(sent.error)) else Close(env, c, s3, who.value, sent.value, f)
  }

  // ------------------------------------------------------------ whatever is on disk

  /** A meeting is declared only if neither the record nor the job names one; it is the
      caller's, and everybody in the organization may read it. */
  lemma DeclaredOnlyIfUnknown(env: M.Env, c: Client, s: System, f: Fates)
    requires env.partSize > 0
    ensures var (after, who) := Identify(env, c, s, f);
            && (s.disk.Some? ==> after == s && who == Ok(s.disk.value.meeting))
            && (s.disk.None? && c.meetingId.Some? ==> after == s && who == Ok(c.meetingId.value))
            && (s.disk.None? && c.meetingId.None? ==>
                  && (who.Ok? ==> f.declare == Delivered && who.value in after.server.db.rows)
                  && forall m :: m in after.server.db.rows && m !in s.server.db.rows ==>
                       && after.log == s.log + [Declaring(Some(m))]
                       && after.server.db.rows[m].createdBy == c.user.id && !after.server.db.rows[m].isPrivate)
  {
  }

  /** A record is resumed exactly when it is about this meeting and these bytes; its parts
      count only under the upload they were sent to; and what the parts will be sent under is
      on disk before the first of them. */
  lemma ResumedOnlyIfOurs(env: M.Env, c: Client, s: System, m: nat, data: Bytes, f: Fates)
    requires env.partSize > 0
    ensures var (after, opening) := Open(env, c, s, m, data, f);
            var usable := s.disk.Some? && s.disk.value.meeting == m && s.disk.value.sha == env.hash(data);
            && s.log + [if usable then Resuming(m) else Starting(m)] <= after.log
            && (opening.Ok? ==>
                  var (ticket, p) := opening.value;
                  && after.disk == Some(p) && p.meeting == m && p.sha == env.hash(data)
                  && p.uploadId == ticket.uploadId && p.size == (if usable then s.disk.value.size else |data|)
                  && p.confirmed == if usable && s.disk.value.uploadId == ticket.uploadId then s.disk.value.confirmed
                                    else [])
            && (if usable then
                  var asked := AskResume(env, s, c, m, f.resume, f.resumeStore);
                  && (opening.Ok? <==> asked.Ok? && (asked.value.uploadId == s.disk.value.uploadId || f.saveReset))
                  && (opening.Err? ==> after == Note(s, Resuming(m)) && opening.error == (if asked.Ok? then Io
                                                                                          else Api(asked.error)))
                else opening.Ok? ==> f.start == Delivered && f.startCommits && f.saveFresh)
  {
    hide M.ResumeUpload, M.Visible, M.StartUpload, M.Unique;
  }

  /** A segment that can no longer be read, since whenever, ends every attempt before its
      first call. */
  lemma DecayIsFelt(env: M.Env, c: Client, s: System, lost: set<nat>, i: nat, f: Fates)
    requires env.partSize > 0 && i < |c.rec| && (i in lost || i in s.damaged)
    ensures Attempt(env, c, Decay(s, lost), f) == (Decay(s, lost), Err(Vault))
  {
    assert Damaged(c.rec, Decay(s, lost).damaged)[i].None?;
    hide Identify, Open, Send, Close;
  }

  /** No call is answered unless it was delivered, and one that was lost or turned away has
      changed nothing on the server. */
  lemma OnlyDeliveredIsAnswered(env: M.Env, c: Client, s: System, e: M.Event, now: int, commits: bool, m: nat,
                                bytes: Bytes, net: Net, fate: StoreFate)
    requires env.partSize > 0
    ensures Ask(env, s, e, now, commits, net).1.Ok? ==> net == Delivered
    ensures net in {RequestLost, TurnedAway} ==> Ask(env, s, e, now, commits, net).0 == s
    ensures AskResume(env, s, c, m, net, fate).Ok? ==> net == Delivered
    ensures forall u, n :: SendPart(s, u, n, bytes, net).1.Ok? ==> net == Delivered
    ensures forall u, n :: net in {RequestLost, TurnedAway} ==> SendPart(s, u, n, bytes, net).0.server == s.server
  {
    hide M.Step, M.ResumeUpload, M.Visible, PutPart;
  }

  /** Of the ways a request can fail only an expired token and a 403 are final. */
  lemma FinalOnlyIfTurnedAway(env: M.Env, s: System, e: M.Event, now: int, commits: bool, net: Net)
    requires env.partSize > 0
    ensures var r := Ask(env, s, e, now, commits, net).1;
            r.Err? ==>
              (!IsTransient(Api(r.error)) <==>
                 || net == TurnedAway
                 || (net in {Delivered, AnswerGarbled} && M.Step(env, s.server, e, now, commits).reply == Err(M.Forbidden)))
  {
    hide M.Step;
  }

  /** A part that was confirmed once keeps its tag. */
  lemma FirstTagStays(p: Progress, tag: Confirmed)
    ensures Holds(Accept(p, tag), tag.number) && p.confirmed <= Accept(p, tag).confirmed
    ensures Holds(p, tag.number) ==> Accept(p, tag) == p
    ensures !Holds(p, tag.number) ==> tag in Accept(p, tag).confirmed
  {
    var more := p.confirmed + [tag];
    assert more[|p.confirmed|] == tag;
  }

  // ------------------------------------------------------------ runs

  /** Attempts on an owed recording, interleaved with anything else the server does and with
      damage to the recording. */
  datatype Move = Try(fates: Fates) | Meanwhile(event: M.Event, now: int, commits: bool) | Decays(lost: set<nat>)

  function Take(env: M.Env, c: Client, s: System, move: Move): System
    requires env.partSize > 0
  {
    match move
    case Try(f) => if s.vault == Owed then Attempt(env, c, s, f).0 else s
    case Meanwhile(e, now, commits) => s.(server := M.Step(env, s.server, e, now, commits).server)
    case Decays(lost) => Decay(s, lost)
  }
}
