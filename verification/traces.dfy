/** Reading a trace of sink calls: the edges of one button and the samples of one axis. */
module Traces {
  import opened ControllerTypes

  predicate IsEdge(call: SinkCall, guid: string, button: nat) {
    call.EmitButton? && call.edge.device.instanceGuid == guid && call.edge.button == button
  }

  function EdgesUpTo(calls: seq<SinkCall>, n: nat, guid: string, button: nat): seq<bool>
    requires n <= |calls|
  {
    if n == 0 then []
    else if IsEdge(calls[n - 1], guid, button) then
      EdgesUpTo(calls, n - 1, guid, button) + [calls[n - 1].edge.state == Pressed]
    else EdgesUpTo(calls, n - 1, guid, button)
  }

  /** The edges of one button in a trace, Pressed as true. */
  function Edges(calls: seq<SinkCall>, guid: string, button: nat): seq<bool> {
    EdgesUpTo(calls, |calls|, guid, button)
  }

  predicate IsSample(call: SinkCall, guid: string, axis: nat) {
    call.EmitAxis? && call.sample.device.instanceGuid == guid && call.sample.axis == axis
  }

  function SamplesUpTo(calls: seq<SinkCall>, n: nat, guid: string, axis: nat): seq<AxisEvent>
    requires n <= |calls|
  {
    if n == 0 then []
    else if IsSample(calls[n - 1], guid, axis) then SamplesUpTo(calls, n - 1, guid, axis) + [calls[n - 1].sample]
    else SamplesUpTo(calls, n - 1, guid, axis)
  }

  /** The events of one axis in a trace. */
  function Samples(calls: seq<SinkCall>, guid: string, axis: nat): seq<AxisEvent> {
    SamplesUpTo(calls, |calls|, guid, axis)
  }

  lemma {:induction false} PrefixUnread(a: seq<SinkCall>, b: seq<SinkCall>, n: nat, guid: string, number: nat)
    requires n <= |a|
    ensures EdgesUpTo(a + b, n, guid, number) == EdgesUpTo(a, n, guid, number)
    ensures SamplesUpTo(a + b, n, guid, number) == SamplesUpTo(a, n, guid, number)
  {
    if n == 0 {
    } else {
      PrefixUnread(a, b, n - 1, guid, number);
    }
  }

  lemma Associative<T>(x: seq<T>, y: seq<T>, z: seq<T>)
    ensures (x + y) + z == x + (y + z)
  {
  }

  /** A trace read in two parts. */
  lemma {:induction false} EdgesConcatUpTo(a: seq<SinkCall>, b: seq<SinkCall>, n: nat, guid: string, button: nat)
    requires n <= |b|
    ensures EdgesUpTo(a + b, |a| + n, guid, button) == Edges(a, guid, button) + EdgesUpTo(b, n, guid, button)
  {
    if n == 0 {
      PrefixUnread(a, b, |a|, guid, button);
    } else {
      EdgesConcatUpTo(a, b, n - 1, guid, button);
      assert (a + b)[|a| + n - 1] == b[n - 1];
      if IsEdge(b[n - 1], guid, button) {
        Associative(Edges(a, guid, button), EdgesUpTo(b, n - 1, guid, button), [b[n - 1].edge.state == Pressed]);
      }
    }
  }

  lemma {:induction false} SamplesConcatUpTo(a: seq<SinkCall>, b: seq<SinkCall>, n: nat, guid: string, axis: nat)
    requires n <= |b|
    ensures SamplesUpTo(a + b, |a| + n, guid, axis) == Samples(a, guid, axis) + SamplesUpTo(b, n, guid, axis)
  {
    if n == 0 {
      PrefixUnread(a, b, |a|, guid, axis);
    } else {
      SamplesConcatUpTo(a, b, n - 1, guid, axis);
      assert (a + b)[|a| + n - 1] == b[n - 1];
      if IsSample(b[n - 1], guid, axis) {
        Associative(Samples(a, guid, axis), SamplesUpTo(b, n - 1, guid, axis), [b[n - 1].sample]);
      }
    }
  }

  lemma EdgesConcat(a: seq<SinkCall>, b: seq<SinkCall>, guid: string, button: nat)
    ensures Edges(a + b, guid, button) == Edges(a, guid, button) + Edges(b, guid, button)
  {
    EdgesConcatUpTo(a, b, |b|, guid, button);
  }

  lemma SamplesConcat(a: seq<SinkCall>, b: seq<SinkCall>, guid: string, axis: nat)
    ensures Samples(a + b, guid, axis) == Samples(a, guid, axis) + Samples(b, guid, axis)
  {
    SamplesConcatUpTo(a, b, |b|, guid, axis);
  }

  lemma OneCall(call: SinkCall, guid: string, number: nat)
    ensures Edges([call], guid, number) == if IsEdge(call, guid, number) then [call.edge.state == Pressed] else []
    ensures Samples([call], guid, number) == if IsSample(call, guid, number) then [call.sample] else []
  {
    assert EdgesUpTo([call], 0, guid, number) == [] && SamplesUpTo([call], 0, guid, number) == [];
  }

  lemma {:induction false} NoEdgesUpTo(calls: seq<SinkCall>, n: nat, guid: string, button: nat)
    requires n <= |calls| && forall k | 0 <= k < n :: !IsEdge(calls[k], guid, button)
    ensures EdgesUpTo(calls, n, guid, button) == []
  {
    if n == 0 {
    } else {
      NoEdgesUpTo(calls, n - 1, guid, button);
    }
  }

  /** Each value differs from the one before it, the first from `start`. */
  predicate AlternatesFrom(start: bool, edges: seq<bool>)
    decreases edges
  {
    edges == [] || (edges[0] != start && AlternatesFrom(edges[0], edges[1..]))
  }

  function LastOf(start: bool, edges: seq<bool>): bool {
    if edges == [] then start else edges[|edges| - 1]
  }

  lemma {:induction false} AlternatesConcat(start: bool, a: seq<bool>, b: seq<bool>)
    requires AlternatesFrom(start, a) && AlternatesFrom(LastOf(start, a), b)
    ensures AlternatesFrom(start, a + b)
    ensures LastOf(start, a + b) == LastOf(LastOf(start, a), b)
    decreases a
  {
    if a == [] {
      assert a + b == b;
    } else {
      AlternatesConcat(a[0], a[1..], b);
      assert (a + b)[1..] == a[1..] + b;
    }
  }

  /** Alternation spelled out on neighbours. */
  lemma {:induction false} AlternatesNeighbours(start: bool, edges: seq<bool>)
    ensures AlternatesFrom(start, edges)
       <==> (edges != [] ==> edges[0] != start) && (forall i | 0 < i < |edges| :: edges[i] != edges[i - 1])
    decreases edges
  {
    if edges == [] {
    } else {
      AlternatesNeighbours(edges[0], edges[1..]);
      forall i | 0 < i < |edges| - 1
        ensures edges[1..][i] == edges[i + 1] && edges[1..][i - 1] == edges[i] {}
      if AlternatesFrom(start, edges) {
        forall i | 0 < i < |edges| ensures edges[i] != edges[i - 1] {
          if i > 1 { assert edges[1..][i - 1] != edges[1..][i - 2]; }
        }
      }
    }
  }

  /** Values with the repetitions taken out, as seen by someone who starts from `last`. */
  function Compress<V(==)>(last: V, values: seq<V>): seq<V> {
    if values == [] then []
    else
      var front := values[..|values| - 1];
      var value := values[|values| - 1];
      Compress(last, front) + (if LastValue(last, front) == value then [] else [value])
  }

  function LastValue<V>(last: V, values: seq<V>): V {
    if values == [] then last else values[|values| - 1]
  }

  /** Compression loses nothing and keeps no repetition. */
  lemma {:induction false} CompressAlternates(last: bool, values: seq<bool>)
    ensures AlternatesFrom(last, Compress(last, values))
    ensures LastOf(last, Compress(last, values)) == LastValue(last, values)
  {
    if values == [] {
    } else {
      var front := values[..|values| - 1];
      CompressAlternates(last, front);
      if LastValue(last, front) != values[|values| - 1] {
        var value := values[|values| - 1];
        assert AlternatesFrom(LastOf(last, Compress(last, front)), [value]);
        AlternatesConcat(last, Compress(last, front), [value]);
      } else {
        assert Compress(last, values) == Compress(last, front);
      }
    }
  }

  // ---- What the manager puts on its streams ----

  /** The button events emitButton does not turn away. */
  function ButtonStream(calls: seq<SinkCall>): seq<ButtonEvent> {
    if calls == [] then []
    else
      var last := calls[|calls| - 1];
      if last.EmitButton? && last.edge.button < MAX_BUTTONS then ButtonStream(calls[..|calls| - 1]) + [last.edge]
      else ButtonStream(calls[..|calls| - 1])
  }

  /** Those of them that press a button. */
  function PressStream(calls: seq<SinkCall>): seq<ButtonEvent> {
    if calls == [] then []
    else
      var last := calls[|calls| - 1];
      if last.EmitButton? && last.edge.button < MAX_BUTTONS && last.edge.state == Pressed then
        PressStream(calls[..|calls| - 1]) + [last.edge]
      else PressStream(calls[..|calls| - 1])
  }

  /** The samples emitAxis does not turn away. */
  function AxisStream(calls: seq<SinkCall>): seq<AxisEvent> {
    if calls == [] then []
    else
      var last := calls[|calls| - 1];
      if last.EmitAxis? && Accepted(last.sample) then AxisStream(calls[..|calls| - 1]) + [last.sample]
      else AxisStream(calls[..|calls| - 1])
  }

  lemma StreamsAppend(calls: seq<SinkCall>, call: SinkCall)
    ensures ButtonStream(calls + [call])
         == if call.EmitButton? && call.edge.button < MAX_BUTTONS then ButtonStream(calls) + [call.edge]
            else ButtonStream(calls)
    ensures PressStream(calls + [call])
         == if call.EmitButton? && call.edge.button < MAX_BUTTONS && call.edge.state == Pressed
            then PressStream(calls) + [call.edge] else PressStream(calls)
    ensures AxisStream(calls + [call])
         == if call.EmitAxis? && Accepted(call.sample) then AxisStream(calls) + [call.sample] else AxisStream(calls)
  {
    assert (calls + [call])[..|calls|] == calls;
  }

  // ---- The last known axis values, as the manager keeps them ----

  /** The guard at the head of syncAxis and emitAxis. */
  predicate Accepted(event: AxisEvent) {
    event.device.instanceGuid != "" && 0.0 <= event.value <= 1.0
  }

  predicate Present(devices: seq<DeviceInfo>, guid: string) {
    exists k :: 0 <= k < |devices| && devices[k].instanceGuid == guid
  }

  /** axisValues after one sink call: samples are entered, setDevices prunes. */
  function Remember(table: map<AxisKey, real>, call: SinkCall): map<AxisKey, real> {
    match call
    case SyncAxis(event) => if Accepted(event) then table[KeyOf(event) := event.value] else table
    case EmitAxis(event) => if Accepted(event) then table[KeyOf(event) := event.value] else table
    case SetDevices(devices) => map key | key in table && Present(devices, key.device) :: table[key]
    case EmitButton(_) => table
    case Report(_) => table
  }

  function Cache(table: map<AxisKey, real>, calls: seq<SinkCall>): map<AxisKey, real> {
    if calls == [] then table else Remember(Cache(table, calls[..|calls| - 1]), calls[|calls| - 1])
  }

  lemma {:induction false} CacheConcat(table: map<AxisKey, real>, a: seq<SinkCall>, b: seq<SinkCall>)
    ensures Cache(table, a + b) == Cache(Cache(table, a), b)
  {
    if b == [] {
      assert a + b == a;
    } else {
      CacheConcat(table, a, b[..|b| - 1]);
      assert (a + b)[..|a + b| - 1] == a + b[..|b| - 1];
    }
  }
}
