/**
 * The MIDI messages the engine consumes, as far as the voice inspects
 * them, and the three producers of `send`: each builds one channel-1
 * message and enqueues it on the shared event channel. The channel is an
 * unbounded FIFO here; its capacity and blocking are not modelled.
 */
module Midi {
  import opened Ints

  type ChannelNumber = c: nat | 1 <= c <= 16 witness 1

  const CH1: ChannelNumber := 1

  datatype ControlChange = CC(control: U8, value: U8) | OtherControl

  datatype ChannelVoiceMsg =
    | NoteOn(note: U8, velocity: U8)
    | NoteOff(note: U8, velocity: U8)
    | ControlChange(control: ControlChange)
    | OtherVoice

  datatype MidiMsg = ChannelVoice(channel: ChannelNumber, msg: ChannelVoiceMsg) | OtherMsg

  function ControlMessage(control: U8, value: U8): (m: MidiMsg)
    ensures m.ChannelVoice? && m.channel == CH1
    ensures m.msg.ControlChange? && m.msg.control == CC(control, value)
  {
    ChannelVoice(CH1, ControlChange(CC(control, value)))
  }

  function NoteOnMessage(note: U8, velocity: U8): (m: MidiMsg)
    ensures m.ChannelVoice? && m.channel == CH1
    ensures m.msg == NoteOn(note, velocity)
  {
    ChannelVoice(CH1, NoteOn(note, velocity))
  }

  function NoteOffMessage(note: U8, velocity: U8): (m: MidiMsg)
    ensures m.ChannelVoice? && m.channel == CH1
    ensures m.msg == NoteOff(note, velocity)
  {
    ChannelVoice(CH1, NoteOff(note, velocity))
  }

  /** The three constructions are injective and no two kinds ever coincide, whatever their arguments. */
  lemma MessagesDistinct(c: U8, v: U8, n: U8, w: U8, c': U8, v': U8, n': U8, w': U8)
    ensures ControlMessage(c, v) == ControlMessage(c', v') <==> c == c' && v == v'
    ensures NoteOnMessage(n, w) == NoteOnMessage(n', w') <==> n == n' && w == w'
    ensures NoteOffMessage(n, w) == NoteOffMessage(n', w') <==> n == n' && w == w'
    ensures ControlMessage(c, v) != NoteOnMessage(n, w)
    ensures ControlMessage(c, v) != NoteOffMessage(n, w)
    ensures NoteOnMessage(n, w) != NoteOffMessage(n', w')
  {
  }

  /** `MIDI_EVENTS`: everything sent so far, oldest first. */
  class EventQueue {
    var sent: seq<MidiMsg>

    constructor ()
      ensures sent == []
    {
      sent := [];
    }

    method SendControl(control: U8, value: U8)
      modifies this
      ensures sent == old(sent) + [ControlMessage(control, value)]
    {
      sent := sent + [ControlMessage(control, value)];
    }

    method SendNoteOn(note: U8, velocity: U8)
      modifies this
      ensures sent == old(sent) + [NoteOnMessage(note, velocity)]
    {
      sent := sent + [NoteOnMessage(note, velocity)];
    }

    method SendNoteOff(note: U8, velocity: U8)
      modifies this
      ensures sent == old(sent) + [NoteOffMessage(note, velocity)]
    {
      sent := sent + [NoteOffMessage(note, velocity)];
    }
  }
}
