/** The uploader as it runs: calls in order, a record rewritten after every part, a stream of
    parts read once. Each method is proved equal to its function in `Uploads`. */
module Uploader {
  import opened Prelude
  import opened Assembly
  import opened ObjectStore
  import opened Uploads
  import M = Meetings

  /** Everything the uploader touches: the server, the record beside the recording, the
      vault's state for it, and what of it can be decrypted. */
  class World {
    var server: M.Server
    var disk: Option<Progress>
    var vault: VaultState
    var log: seq<Call>
    var damaged: set<nat>

    function State(): System
      reads this
    {
      System(server, disk, vault, log, damaged)
    }

    constructor (s: System)
      ensures State() == s
    {
      server, disk, vault, log, damaged := s.server, s.disk, s.vault, s.log, s.damaged;
    }

    method Remember(call: Call)
      modifies this`log
      ensures State() == Note(old(State()), call)
    {
      log := log + [call];
    }

    method Request(env: M.Env, e: M.Event, now: int, commits: bool, net: Net)
      returns (reply: Result<M.Reply, ApiError>)
      requires env.partSize > 0
      modifies this`server
      ensures (State(), reply) == Ask(env, old(State()), e, now, commits, net)
    {
      if net == RequestLost {
        return Err(Unreachable);
      }
      if net == TurnedAway {
        return Err(SessionExpired);
      }
      var o := M.Step(env, server, e, now, commits);
      server := o.server;
      if net == AnswerLost {
        return Err(Unreachable);
      }
      if o.reply.Err? {
        return Err(Told(o.reply.error));
      }
      reply := if net == AnswerGarbled then Err(Protocol) else Ok(o.reply.value);
    }

    method Put(uploadId: nat, number: nat, bytes: Bytes, net: Net) returns (tag: Result<nat, ApiError>)
      modifies this`server, this`log
      ensures (State(), tag) == SendPart(old(State()), uploadId, number, bytes, net)
    {
      Remember(Sending(uploadId, number));
      if net == RequestLost {
        return Err(Unreachable);
      }
      if net == TurnedAway {
        return Err(ServerSays(M.StorageUnavailable));
      }
      var stored := PutPart(server.store, uploadId, number, bytes);
      if stored.None? {
        return Err(if net == AnswerLost then Unreachable else ServerSays(M.StorageUnavailable));
      }
      var etag := server.store.nextTag;
      server := M.Server(server.db, stored.value);
      tag := if net == AnswerLost then Err(Unreachable)
             else if net == AnswerGarbled then Err(Protocol)
             else Ok(etag);
    }

    /** The record, written whole or not at all. */
    method Save(p: Progress, kept: bool) returns (r: Result<(), UploadError>)
      modifies this`disk, this`log
      ensures r == if kept then Ok(()) else Err(Io)
      ensures State() == if kept then Write(old(State()), p) else old(State())
    {
      if !kept {
        return Err(Io);
      }
      disk := Some(p);
      Remember(Saved(p));
      r := Ok(());
    }
  }

  method IdentifyMeeting(env: M.Env, c: Client, world: World, f: Fates) returns (who: Result<nat, ApiError>)
    requires env.partSize > 0
    modifies world
    ensures (world.State(), who) == Identify(env, c, old(world.State()), f)
  {
    if world.disk.Some? {
      return Ok(world.disk.value.meeting);
    }
    if c.meetingId.Some? {
      return Ok(c.meetingId.value);
    }
    var before := world.server.db;
    var reply := world.Request(env, M.Declare(f.declareAs, c.user, false), f.now, f.declareCommits, f.declare);
    var took := f.declareAs !in before.rows && f.declareAs in world.server.db.rows;
    world.Remember(Declaring(if took then Some(f.declareAs) else None));
    who := if reply.Err? then Err(reply.error) else Ok(f.declareAs);
  }

  method OpenUpload(env: M.Env, c: Client, world: World, m: nat, size: nat, sha: nat, ghost data: Bytes, f: Fates)
    returns (r: Result<(Ticket, Progress), UploadError>)
    requires env.partSize > 0 && size == |data| && sha == env.hash(data)
    modifies world
    ensures (world.State(), r) == Open(env, c, old(world.State()), m, data, f)
  {
    var progress := world.disk;
    if progress.Some? && (progress.value.meeting != m || progress.value.sha != sha) {
      progress := None;
    }
    var ticket: Ticket;
    var record: Progress;
    if progress.Some? {
      world.Remember(Resuming(m));
      var answer := AskResume(env, world.State(), c, m, f.resume, f.resumeStore);
      if answer.Err? {
        return Err(Api(answer.error));
      }
      ticket, record := answer.value, progress.value;
    } else {
      world.Remember(Starting(m));
      var declared := M.Declared(size, sha, c.recordedMs / 1000, c.pausedMs / 1000);
      var reply := world.Request(env, M.Start(m, c.user, declared, f.startStore), f.now, f.startCommits, f.start);
      if reply.Err? {
        return Err(Api(reply.error));
      }
      if !reply.value.Opened? {
        return Err(Api(Protocol));
      }
      ticket := reply.value.ticket;
      record := Progress(m, ticket.uploadId, size, sha, []);
      var saved := world.Save(record, f.saveFresh);
      if saved.Err? {
        return Err(saved.error);
      }
    }
    if ticket.uploadId != record.uploadId {
      record := record.(uploadId := ticket.uploadId, confirmed := []);
      var saved := world.Save(record, f.saveReset);
      if saved.Err? {
        return Err(saved.error);
      }
    }
    r := Ok((ticket, record));
  }

  /** The loop over the slots. Every part is read, confirmed or not, since parts come in one order.
      `rec` is the recording as this pass finds it. */
  method SendParts(world: World, rec: Recording, ticket: Ticket, opening: Progress, f: Fates)
    returns (r: Result<Progress, UploadError>)
    modifies world
    ensures (world.State(), r) ==
            Send(old(world.State()), HandoutOf([], rec, Max(ticket.partSize, 1)), ticket, opening, 0, f)
  {
    ghost var h := HandoutOf([], rec, Max(ticket.partSize, 1));
    ghost var goal := Send(world.State(), h, ticket, opening, 0, f);
    var progress := opening;
    var parts := new Parts(rec, ticket.partSize);
    var k := 0;
    while k < ticket.count
      invariant 0 <= k <= ticket.count && k <= |h.pieces|
      invariant parts.Valid() && fresh(parts)
      invariant parts.Ahead() == Handout(h.pieces[k..], h.breaks)
      invariant Send(world.State(), h, ticket, progress, k, f) == goal
    {
      var part := parts.NextPart();
      if part.Err? {
        world.Remember(Unread(k + 1));
        return Err(Vault);
      }
      if part.value.None? {
        return Err(Changed);
      }
      assert h.pieces[k] == h.pieces[k..][0];
      assert h.pieces[k + 1..] == h.pieces[k..][1..];
      var sent := SendSlot(world, ticket, progress, k, part.value.value, h, f);
      if sent.Err? {
        return Err(sent.error);
      }
      progress := sent.value;
      k := k + 1;
    }
    r := Ok(progress);
  }

  /** One slot: skipped when its part is confirmed, otherwise sent, noted and saved. */
  method SendSlot(world: World, ticket: Ticket, progress: Progress, k: nat, bytes: Bytes, ghost h: Handout, f: Fates)
    returns (r: Result<Progress, UploadError>)
    requires k < ticket.count && k < |h.pieces| && bytes == h.pieces[k]
    modifies world
    ensures r.Ok? ==> Send(old(world.State()), h, ticket, progress, k, f)
                      == Send(world.State(), h, ticket, r.value, k + 1, f)
    ensures r.Err? ==> Send(old(world.State()), h, ticket, progress, k, f) == (world.State(), Err(r.error))
  {
    if Holds(progress, k + 1) {
      return Ok(progress);
    }
    var tag := world.Put(ticket.uploadId, k + 1, bytes, f.put(k));
    if tag.Err? {
      return Err(Api(tag.error));
    }
    var more := Accept(progress, Confirmed(k + 1, tag.value));
    var saved := world.Save(more, f.save(k));
    r := if saved.Err? then Err(saved.error) else Ok(more);
  }

  method CloseUpload(env: M.Env, c: Client, world: World, m: nat, p: Progress, f: Fates) returns (r: Result<nat, UploadError>)
    requires env.partSize > 0
    modifies world
    ensures (world.State(), r) == Close(env, c, old(world.State()), m, p, f)
  {
    world.Remember(Finishing(m));
    var reply := world.Request(env, M.Finish(m, c.user, p.uploadId, p.confirmed, f.finishStore, f.deletion),
                               f.now, f.finishCommits, f.finish);
    if reply.Err? {
      return Err(Api(reply.error));
    }
    world.Remember(FinishAnswered(m));
    if !f.mark {
      return Err(Vault);
    }
    world.vault := Uploaded;
    if f.forget {
      world.disk := None;
    }
    r := Ok(m);
  }

  /** `Attempt`, call by call. */
  method AttemptUpload(env: M.Env, c: Client, world: World, f: Fates) returns (r: Result<nat, UploadError>)
    requires env.partSize > 0
    modifies world
    ensures (world.State(), r) == Attempt(env, c, old(world.State()), f)
  {
    var rec := Damaged(c.rec, world.damaged);
    var measured := Measure(rec, env.hash);
    if measured.Err? {
      return Err(Vault);
    }
    if measured.value.size == 0 {
      return Err(Empty);
    }
    var who := IdentifyMeeting(env, c, world, f);
    if who.Err? {
      return Err(Api(who.error));
    }
    var opening := OpenUpload(env, c, world, who.value, measured.value.size, measured.value.digest, Plain(rec), f);
    if opening.Err? {
      return Err(opening.error);
    }
    world.damaged := world.damaged + f.lost;
    var sent := SendParts(world, Damaged(c.rec, world.damaged), opening.value.0, opening.value.1, f);
    if sent.Err? {
      return Err(sent.error);
    }
    r := CloseUpload(env, c, world, who.value, sent.value, f);
  }
}
