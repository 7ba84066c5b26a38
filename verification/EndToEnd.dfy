/** From the audio a meeting was recorded as to the object the server holds. */
module EndToEnd {
  import opened Prelude
  import opened Assembly
  import opened ObjectStore
  import opened Uploads
  import M = Meetings
  import Safety = UploadSafety
  import Audio = Recording
  import Tape
  import Finished
  import SegmentWriter

  /** The vault's recording: the segments the writer stored, in order, all of them readable. */
  function Vaulted(stored: seq<Bytes>): Assembly.Recording {
    seq(|stored|, i requires 0 <= i < |stored| => Some(stored[i]))
  }

  lemma {:induction false} PlainOfVaulted(stored: seq<Bytes>)
    ensures Readable(Vaulted(stored))
    ensures Plain(Vaulted(stored)) == Flatten(stored)
  {
    if stored != [] {
      PlainOfVaulted(stored[1..]);
      assert Vaulted(stored)[1..] == Vaulted(stored[1..]);
    }
  }

  /** What one Ogg stream made of this audio looks like in a file. */
  function OneStream(rig: Audio.Rig, audio: seq<Audio.Sample>): Bytes
    requires Audio.PerSegment(rig) > 0
    requires Finished.Ends(rig, Tape.AllFrames(audio), Tape.Unfinished(rig, audio))
  {
    Audio.Render(rig, Finished.AllPages(rig, Tape.AllFrames(audio), Tape.Unfinished(rig, audio)))
  }

  /** However the audio arrived at the writer, and however often the upload was interrupted:
      the object the store has for the meeting is the one Ogg stream of that audio. */
  lemma WhatWasRecordedIsWhatIsStored(
      rig: Audio.Rig, audio: seq<Audio.Sample>,
      env: M.Env, c: Client, s: System, moves: seq<Move>, next: Fates, m: nat, initial: nat)
    requires Audio.PerSegment(rig) > 0 && env.partSize > 0
    requires Tape.Unfinished(rig, audio) ==> Tape.AllFrames(audio) != []
    requires c.rec == Vaulted(Tape.FinalTape(rig, Tape.AllFrames(audio), Tape.Unfinished(rig, audio)).stored)
    requires Safety.Untouched(c, s, initial) && Safety.Fair(env, c, s, moves)
    ensures Finished.Ends(rig, Tape.AllFrames(audio), Tape.Unfinished(rig, audio))
    ensures var t := Safety.RunMoves(env, c, s, moves);
            Safety.Ours(c, t.log, m) && AudioKey(t.server.db.org.id, m) in t.server.store.objects ==>
              t.server.store.objects[AudioKey(t.server.db.org.id, m)] == OneStream(rig, audio)
  {
    hide Safety.Untouched, Safety.Fair, Safety.RunMoves, Safety.Arrives, Safety.Ours;
    hide Tape.FinalTape, Tape.AllFrames, Tape.Unfinished, Finished.AllPages, Finished.Ends, Audio.Render, Audio.PerSegment;
    hide Vaulted, Take;
    SegmentWriter.FinishedRecordingIsTheStream(rig, audio);
    PlainOfVaulted(Tape.FinalTape(rig, Tape.AllFrames(audio), Tape.Unfinished(rig, audio)).stored);
    Safety.RecordingArrivesWhole(env, c, s, moves, next, initial);
  }
}
