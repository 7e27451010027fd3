/**
 * The sequencer task: once per beat it sends a full-velocity note-on for
 * the next note of the melody, cycling through it in index order, and the
 * matching note-off after the note's duration. Time is abstracted into the
 * number of beats that have elapsed.
 */
module Sequencer {
  import opened Ints
  import opened Midi

  const VELOCITY: U8 := 127

  /** Every event sent during the first `beats` beats; an empty melody sends nothing. */
  function Trace(melody: seq<U8>, beats: nat): (r: seq<MidiMsg>)
    ensures |r| == if |melody| == 0 then 0 else 2 * beats
  {
    if |melody| == 0 || beats == 0 then []
    else
      var note := melody[(beats - 1) % |melody|];
      Trace(melody, beats - 1) + [NoteOnMessage(note, VELOCITY), NoteOffMessage(note, VELOCITY)]
  }

  /**
   * Beat k sends note-on then note-off of melody[k mod len], both at
   * velocity 127, so ons and offs strictly alternate and every on is
   * closed by its own off before the next on.
   */
  lemma {:induction false} TraceShape(melody: seq<U8>, beats: nat)
    requires |melody| > 0
    ensures |Trace(melody, beats)| == 2 * beats
    ensures forall k :: 0 <= k < beats ==>
      Trace(melody, beats)[2 * k] == NoteOnMessage(melody[k % |melody|], VELOCITY) &&
      Trace(melody, beats)[2 * k + 1] == NoteOffMessage(melody[k % |melody|], VELOCITY)
  {
    if beats > 0 {
      TraceShape(melody, beats - 1);
      var t := Trace(melody, beats);
      var p := Trace(melody, beats - 1);
      assert t[..|p|] == p;
      forall k | 0 <= k < beats
        ensures t[2 * k] == NoteOnMessage(melody[k % |melody|], VELOCITY)
        ensures t[2 * k + 1] == NoteOffMessage(melody[k % |melody|], VELOCITY)
      {
        if k < beats - 1 {
          assert t[2 * k] == p[2 * k] && t[2 * k + 1] == p[2 * k + 1];
        }
      }
    }
  }

  /** An on at position i is followed by the off of the same note; no two ons are adjacent. */
  lemma OnsAndOffsAlternate(melody: seq<U8>, beats: nat, i: nat)
    requires |melody| > 0 && i < |Trace(melody, beats)|
    ensures Trace(melody, beats)[i].ChannelVoice? && Trace(melody, beats)[i].channel == CH1
    ensures Trace(melody, beats)[i].msg.NoteOn? <==> i % 2 == 0
    ensures Trace(melody, beats)[i].msg.NoteOff? <==> i % 2 == 1
    ensures i % 2 == 0 ==>
      i + 1 < |Trace(melody, beats)| &&
      Trace(melody, beats)[i + 1] == NoteOffMessage(Trace(melody, beats)[i].msg.note, VELOCITY)
  {
    TraceShape(melody, beats);
    var k := i / 2;
    assert i == 2 * k || i == 2 * k + 1;
  }

  /** An empty melody sends no events however many beats pass. */
  lemma EmptyMelodySilent(beats: nat)
    ensures Trace([], beats) == []
  {
  }

  /** Later beats only append: the events already sent never change. */
  lemma TraceExtends(melody: seq<U8>, beats: nat, more: nat)
    requires beats <= more
    ensures Trace(melody, beats) <= Trace(melody, more)
    decreases more
  {
    if beats < more {
      TraceExtends(melody, beats, more - 1);
    }
  }

  /** `sequencer`, run for `beats` beats onto the event queue; the melody is only read. */
  method RunSequencer(melody: seq<U8>, beats: nat, events: EventQueue)
    modifies events
    ensures events.sent == old(events.sent) + Trace(melody, beats)
  {
    if |melody| == 0 {
      return;
    }
    var b := 0;
    while b < beats
      invariant 0 <= b <= beats
      invariant events.sent == old(events.sent) + Trace(melody, b)
    {
      var note := melody[b % |melody|];
      events.SendNoteOn(note, VELOCITY);
      events.SendNoteOff(note, VELOCITY);
      b := b + 1;
    }
  }
}
