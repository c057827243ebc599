/** utils/ambience.ts: the procedural background-noise generator. Web Audio
    nodes are abstract ids handed out by the generator's context; the class
    records which of them are playing and which are wired into the graph. */
module Ambience {
  import opened Wrappers
  import opened Types

  /** An `AudioContext`, by handle, with its sample rate. */
  datatype Context = Context(handle: nat, sampleRate: nat)

  datatype NodeKind =
    | GainNode(gain: real)
    | NoiseSource(buffer: seq<real>)   // looping AudioBufferSourceNode
    | Lowpass(cutoffHz: int)           // BiquadFilterNode of type 'lowpass'
    | SineOscillator(frequencyHz: int)

  datatype Node = Node(id: nat, kind: NodeKind)

  /** `'stop' in node`: the scheduled sources, which `stopSoundsOnly` stops. */
  predicate IsSource(n: Node) {
    n.kind.NoiseSource? || n.kind.SineOscillator?
  }

  function Ids(ns: seq<Node>): set<nat> {
    set i | 0 <= i < |ns| :: ns[i].id
  }

  function SourceIds(ns: seq<Node>): set<nat> {
    set i | 0 <= i < |ns| && IsSource(ns[i]) :: ns[i].id
  }

  /** The preset's cutoff and gain: quiet 400 Hz at 0.02, office 800 Hz at 0.04, intense 150 Hz at 0.08. */
  function Cutoff(p: Preset): int {
    match p
    case Quiet => 400
    case Office => 800
    case Intense => 150
  }

  function Level(p: Preset): real {
    match p
    case Quiet => 0.02
    case Office => 0.04
    case Intense => 0.08
  }

  /** The nodes `start` pushes after the master gain, numbered from `first`:
      source, filter, gain, and for `intense` a 100 Hz sine and its 0.02 gain. */
  function PresetNodes(p: Preset, first: nat, noise: seq<real>): (r: seq<Node>)
    ensures |r| == if p == Intense then 5 else 3
    ensures forall i :: 0 <= i < |r| ==> r[i].id == first + i
    ensures r[0].kind == NoiseSource(noise) && r[1].kind == Lowpass(Cutoff(p)) && r[2].kind == GainNode(Level(p))
    ensures p == Intense ==> r[3].kind == SineOscillator(100) && r[4].kind == GainNode(0.02)
  {
    var base := [Node(first, NoiseSource(noise)), Node(first + 1, Lowpass(Cutoff(p))), Node(first + 2, GainNode(Level(p)))];
    if p == Intense then base + [Node(first + 3, SineOscillator(100)), Node(first + 4, GainNode(0.02))] else base
  }

  /** `createNoiseBuffer`: a mono buffer of two seconds, sample `i` being `random[i] * 2 - 1`. */
  method CreateNoiseBuffer(sampleRate: nat, random: seq<real>) returns (buffer: array<real>)
    requires |random| >= 2 * sampleRate
    requires forall i :: 0 <= i < |random| ==> 0.0 <= random[i] < 1.0
    ensures buffer.Length == 2 * sampleRate
    ensures forall i :: 0 <= i < buffer.Length ==> buffer[i] == random[i] * 2.0 - 1.0 && -1.0 <= buffer[i] < 1.0
  {
    var bufferSize := 2 * sampleRate;
    buffer := new real[bufferSize];
    var i := 0;
    while i < bufferSize
      invariant 0 <= i <= bufferSize
      invariant forall k :: 0 <= k < i ==> buffer[k] == random[k] * 2.0 - 1.0 && -1.0 <= buffer[k] < 1.0
    {
      buffer[i] := random[i] * 2.0 - 1.0;
      i := i + 1;
    }
  }

  class AmbienceGenerator {
    var ctx: Option<Context>
    var nodes: seq<Node>
    var masterGain: Option<Node>
    /** The next id the context hands out. */
    var nextId: nat
    /** Source nodes started and not yet stopped. */
    var playing: set<nat>
    /** Nodes whose outputs are connected. */
    var connected: set<nat>

    ghost predicate Valid()
      reads this
    {
      && (forall i :: 0 <= i < |nodes| ==> nodes[i].id < nextId)
      && (masterGain.Some? ==> masterGain.value.id < nextId && !IsSource(masterGain.value))
      && playing <= SourceIds(nodes)
    }

    constructor ()
      ensures Valid()
      ensures ctx == None && masterGain == None && nodes == [] && playing == {} && connected == {}
    {
      ctx, nodes, masterGain := None, [], None;
      nextId, playing, connected := 0, {}, {};
    }

    /** `init`: a new master gain wired to the destination and pushed onto `nodes`. */
    method Init(c: Context)
      requires Valid()
      modifies this
      ensures Valid()
      ensures ctx == Some(c)
      ensures masterGain == Some(Node(old(nextId), GainNode(1.0)))
      ensures nodes == old(nodes) + [masterGain.value]
      ensures connected == old(connected) + {old(nextId)} && playing == old(playing)
    {
      ctx := Some(c);
      var gain := Node(nextId, GainNode(1.0));
      nextId := nextId + 1;
      masterGain := Some(gain);
      connected := connected + {gain.id};
      nodes := nodes + [gain];
      assert SourceIds(old(nodes)) <= SourceIds(nodes) by {
        forall id | id in SourceIds(old(nodes)) ensures id in SourceIds(nodes) {
          var i :| 0 <= i < |old(nodes)| && IsSource(old(nodes)[i]) && old(nodes)[i].id == id;
          assert nodes[i] == old(nodes)[i];
        }
      }
    }

    /** `stopSoundsOnly`: stops every source, disconnects every node but the master gain,
        and keeps only the master gain in `nodes`. */
    method StopSoundsOnly()
      requires Valid()
      modifies this
      ensures Valid()
      ensures nodes == if masterGain.Some? then [masterGain.value] else []
      ensures playing == {}
      ensures connected == old(connected) - (Ids(old(nodes)) - (if masterGain.Some? then {masterGain.value.id} else {}))
      ensures ctx == old(ctx) && masterGain == old(masterGain) && nextId == old(nextId)
    {
      var keep: set<nat> := if masterGain.Some? then {masterGain.value.id} else {};
      var i := 0;
      while i < |nodes|
        invariant 0 <= i <= |nodes|
        invariant nodes == old(nodes) && ctx == old(ctx) && masterGain == old(masterGain) && nextId == old(nextId)
        invariant playing == old(playing) - SourceIds(nodes[..i])
        invariant connected == old(connected) - (Ids(nodes[..i]) - keep)
      {
        var node := nodes[i];
        if IsSource(node) {
          playing := playing - {node.id};
        }
        if node.id !in keep {
          connected := connected - {node.id};
        }
        IdsSnoc(nodes[..i], node);
        assert nodes[..i + 1] == nodes[..i] + [node];
        i := i + 1;
      }
      assert nodes[..i] == nodes;
      assert playing == {};
      nodes := if masterGain.Some? then [masterGain.value] else [];
    }

    /** `start`: inert without a context or master gain; otherwise silences the
        previous preset and builds, starts and records the new one. */
    method Start(preset: Preset, random: seq<real>)
      requires Valid()
      requires ctx.Some? ==> |random| >= 2 * ctx.value.sampleRate
      requires forall i :: 0 <= i < |random| ==> 0.0 <= random[i] < 1.0
      modifies this
      ensures Valid()
      ensures old(ctx).None? || old(masterGain).None? ==>
        ctx == old(ctx) && nodes == old(nodes) && masterGain == old(masterGain) && nextId == old(nextId)
        && playing == old(playing) && connected == old(connected)
      ensures old(ctx).Some? && old(masterGain).Some? ==>
        var built := PresetNodes(preset, old(nextId), NoiseOf(random, old(ctx).value.sampleRate));
        && ctx == old(ctx) && masterGain == old(masterGain)
        && nodes == [masterGain.value] + built
        && nextId == old(nextId) + |built|
        && playing == SourceIds(built) && old(nextId) in playing
        && connected == (old(connected) - (Ids(old(nodes)) - {masterGain.value.id})) + Ids(built)
    {
      if ctx.None? || masterGain.None? {
        return;
      }
      StopSoundsOnly();
      var noiseBuffer := CreateNoiseBuffer(ctx.value.sampleRate, random);
      assert noiseBuffer[..] == NoiseOf(random, ctx.value.sampleRate);
      var built := PresetNodes(preset, nextId, noiseBuffer[..]);
      assert IsSource(built[0]) && built[0].id == nextId;
      nextId := nextId + |built|;
      playing := SourceIds(built);
      connected := connected + Ids(built);
      nodes := nodes + built;
      assert SourceIds(built) <= SourceIds(nodes) by {
        forall id | id in SourceIds(built) ensures id in SourceIds(nodes) {
          var i :| 0 <= i < |built| && IsSource(built[i]) && built[i].id == id;
          assert nodes[i + 1] == built[i];
        }
      }
    }

    /** `stop`: silences everything, disconnects the master gain and forgets it and the context. */
    method Stop()
      requires Valid()
      modifies this
      ensures Valid()
      ensures ctx == None && masterGain == None && playing == {}
      ensures nodes == if old(masterGain).Some? then [old(masterGain).value] else []
      ensures connected == old(connected) - Ids(old(nodes)) - (if old(masterGain).Some? then {old(masterGain).value.id} else {})
    {
      StopSoundsOnly();
      if masterGain.Some? {
        connected := connected - {masterGain.value.id};
        masterGain := None;
      }
      ctx := None;
    }
  }

  lemma IdsSnoc(ns: seq<Node>, n: Node)
    ensures Ids(ns + [n]) == Ids(ns) + {n.id}
    ensures SourceIds(ns + [n]) == SourceIds(ns) + (if IsSource(n) then {n.id} else {})
  {
    var s := ns + [n];
    assert forall i :: 0 <= i < |ns| ==> s[i] == ns[i];
    assert s[|ns|] == n;
  }

  /** The noise samples a two-second buffer takes from `random`. */
  function NoiseOf(random: seq<real>, sampleRate: nat): seq<real>
    requires |random| >= 2 * sampleRate
  {
    seq(2 * sampleRate, i requires 0 <= i < 2 * sampleRate => random[i] * 2.0 - 1.0)
  }
}
