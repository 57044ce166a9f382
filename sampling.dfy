/** Reading a bus trace from the controller's side: its schedule (the writes and the delays) and what a
    controller whose Enable pin is wired to one config bit samples from it. */
module Sampling {
  import opened Bytes
  import opened Interfaces
  import opened Hd44780
  import opened Seqs

  // ---------------------------------------------------------------- schedule

  /** The interface writes of a trace, in order, with the delays dropped. */
  function Writes(t: seq<Event>): seq<Event>
    decreases |t|
  {
    if t == [] then [] else (if t[0].Send? then [t[0]] else []) + Writes(t[1..])
  }

  /** The delays of a trace, in order. */
  function Delays(t: seq<Event>): seq<nat>
    decreases |t|
  {
    if t == [] then [] else (if t[0].Delay? then [t[0].us] else []) + Delays(t[1..])
  }

  lemma {:induction false} WritesAppend(a: seq<Event>, b: seq<Event>)
    ensures Writes(a + b) == Writes(a) + Writes(b)
    decreases |a|
  {
    if a != [] {
      calc {
        Writes(a + b);
        { assert (a + b)[0] == a[0]; assert (a + b)[1..] == a[1..] + b; }
        (if a[0].Send? then [a[0]] else []) + Writes(a[1..] + b);
        { WritesAppend(a[1..], b); }
        (if a[0].Send? then [a[0]] else []) + (Writes(a[1..]) + Writes(b));
      }
    } else {
      assert a + b == b;
    }
  }

  lemma {:induction false} DelaysAppend(a: seq<Event>, b: seq<Event>)
    ensures Delays(a + b) == Delays(a) + Delays(b)
    decreases |a|
  {
    if a != [] {
      calc {
        Delays(a + b);
        { assert (a + b)[0] == a[0]; assert (a + b)[1..] == a[1..] + b; }
        (if a[0].Delay? then [a[0].us] else []) + Delays(a[1..] + b);
        { DelaysAppend(a[1..], b); }
        (if a[0].Delay? then [a[0].us] else []) + (Delays(a[1..]) + Delays(b));
      }
    } else {
      assert a + b == b;
    }
  }

  lemma ScheduleAppend(a: seq<Event>, b: seq<Event>)
    ensures Writes(a + b) == Writes(a) + Writes(b)
    ensures Delays(a + b) == Delays(a) + Delays(b)
  {
    WritesAppend(a, b);
    DelaysAppend(a, b);
  }

  lemma ScheduleCons(e: Event, t: seq<Event>)
    ensures Writes([e] + t) == (if e.Send? then [e] else []) + Writes(t)
    ensures Delays([e] + t) == (if e.Delay? then [e.us] else []) + Delays(t)
  {
    assert ([e] + t)[0] == e;
    assert ([e] + t)[1..] == t;
  }

  // ---------------------------------------------------------------- sampling on falling edges

  /** The level of the enable line selected by mask `en` after event `e`, when it was `high` before:
      a write sets it from the config byte, a delay leaves it. */
  function LevelAfter(e: Event, en: u8, high: bool): bool
  {
    if e.Send? then e.config & en != 0 else high
  }

  /** The level of that line after a whole trace. */
  function Level(t: seq<Event>, en: u8, high: bool): bool
    decreases |t|
  {
    if t == [] then high else Level(t[1..], en, LevelAfter(t[0], en, high))
  }

  /** What one event makes the controller sample: a write that takes the line from high to low is a falling
      edge, and the controller latches RS (config bit 0) and the wired data lines D4-D7. */
  function StrobeAt(e: Event, en: u8, high: bool): seq<Strobe>
  {
    if e.Send? && high && e.config & en == 0 then [Strobe(e.config & RS != 0, e.data & 0xF0)] else []
  }

  /** Everything a controller on enable mask `en` samples from a trace, starting from level `high`. */
  function Sampled(t: seq<Event>, en: u8, high: bool): seq<Strobe>
    decreases |t|
  {
    if t == [] then [] else StrobeAt(t[0], en, high) + Sampled(t[1..], en, LevelAfter(t[0], en, high))
  }

  lemma SampledCons(e: Event, t: seq<Event>, en: u8, high: bool)
    ensures Sampled([e] + t, en, high) == StrobeAt(e, en, high) + Sampled(t, en, LevelAfter(e, en, high))
    ensures Level([e] + t, en, high) == Level(t, en, LevelAfter(e, en, high))
  {
    assert ([e] + t)[0] == e;
    assert ([e] + t)[1..] == t;
  }

  /** A write that drives the line high samples nothing. */
  lemma SampledRaise(config: u8, data: u8, t: seq<Event>, en: u8, high: bool)
    requires config & en != 0
    ensures Sampled([Send(config, data)] + t, en, high) == Sampled(t, en, true)
    ensures Level([Send(config, data)] + t, en, high) == Level(t, en, true)
  {
    SampledCons(Send(config, data), t, en, high);
  }

  /** A write that drives a high line low is a falling edge: the controller samples RS and D4-D7. */
  lemma SampledFall(config: u8, data: u8, t: seq<Event>, en: u8)
    requires config & en == 0
    ensures Sampled([Send(config, data)] + t, en, true)
         == [Strobe(config & RS != 0, data & 0xF0)] + Sampled(t, en, false)
    ensures Level([Send(config, data)] + t, en, true) == Level(t, en, false)
  {
    SampledCons(Send(config, data), t, en, true);
  }

  /** A write that keeps a low line low samples nothing. */
  lemma SampledStayLow(config: u8, data: u8, t: seq<Event>, en: u8)
    requires config & en == 0
    ensures Sampled([Send(config, data)] + t, en, false) == Sampled(t, en, false)
    ensures Level([Send(config, data)] + t, en, false) == Level(t, en, false)
  {
    SampledCons(Send(config, data), t, en, false);
  }

  /** A delay samples nothing and leaves the line as it is. */
  lemma SampledIdle(us: nat, t: seq<Event>, en: u8, high: bool)
    ensures Sampled([Delay(us)] + t, en, high) == Sampled(t, en, high)
    ensures Level([Delay(us)] + t, en, high) == Level(t, en, high)
  {
    SampledCons(Delay(us), t, en, high);
  }

  lemma {:induction false} LevelAppend(a: seq<Event>, b: seq<Event>, en: u8, high: bool)
    ensures Level(a + b, en, high) == Level(b, en, Level(a, en, high))
    decreases |a|
  {
    if a == [] {
      assert a + b == b;
    } else {
      assert (a + b)[0] == a[0];
      assert (a + b)[1..] == a[1..] + b;
      LevelAppend(a[1..], b, en, LevelAfter(a[0], en, high));
    }
  }

  lemma SampledUnfold(t: seq<Event>, en: u8, high: bool)
    requires t != []
    ensures Sampled(t, en, high) == StrobeAt(t[0], en, high) + Sampled(t[1..], en, LevelAfter(t[0], en, high))
    ensures Level(t, en, high) == Level(t[1..], en, LevelAfter(t[0], en, high))
  {
  }

  /** Sampling a concatenation samples the first part, then the second from the level the first leaves. */
  lemma {:induction false} SampledAppend(a: seq<Event>, b: seq<Event>, en: u8, high: bool)
    ensures Sampled(a + b, en, high) == Sampled(a, en, high) + Sampled(b, en, Level(a, en, high))
    ensures Level(a + b, en, high) == Level(b, en, Level(a, en, high))
    decreases |a|
  {
    LevelAppend(a, b, en, high);
    if a == [] {
      assert a + b == b;
    } else {
      var h' := LevelAfter(a[0], en, high);
      assert (a + b)[0] == a[0];
      assert (a + b)[1..] == a[1..] + b;
      SampledUnfold(a + b, en, high);
      SampledUnfold(a, en, high);
      SampledAppend(a[1..], b, en, h');
      AppendAssoc(StrobeAt(a[0], en, high), Sampled(a[1..], en, h'), Sampled(b, en, Level(a, en, high)));
    }
  }
}
