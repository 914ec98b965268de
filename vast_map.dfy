/**
 * The unlock screen's stand-in for an ad framework: it turns the event
 * stream of an XML pull parser over a VAST response into nested maps and
 * walks them by (key, index) paths. Java's HashMaps live on the heap and
 * point to each other, so the model keeps them in an arena: a node is its
 * position in `nodes`, and a map value that is another map or a list of
 * maps holds positions.
 */
module VastMap {
  import opened Wrappers

  /** What a node maps a key to: an attribute or text, a list of child nodes, or the "parent" back-link. */
  datatype Entry = Str(s: string) | List(ids: seq<nat>) | Ref(id: nat)

  type Node = map<string, Entry>

  /** The pull-parser events the loader reads; the end of the sequence is END_DOCUMENT. */
  datatype XmlEvent =
    | StartTag(name: string, attributes: seq<(string, string)>)
    | Text(text: string)
    | EndTag
    | Other      // any other event type: logged and skipped
    | Malformed  // the parser throws XmlPullParserException

  /** The exceptions the loader and the unlock path can meet. */
  datatype Exception = ParserError | ClassCast | NullPointer | IndexOutOfBounds

  const ParentKey: string := "parent"
  const TextKey: string := "CDATA"

  /** The loader's state: the heap of maps, the root (`vastMap`) and the open node (`current`). */
  datatype Build = Build(nodes: seq<Node>, root: Option<nat>, current: Option<nat>)

  /** One step of the loop: go on, or stop on an exception with the heap as it was left. */
  datatype Step = Continue(b: Build) | Halt(b: Build, why: Exception)

  /** Every position a map holds is a node of the heap. */
  predicate Linked(nodes: seq<Node>)
  {
    forall n, k :: 0 <= n < |nodes| && k in nodes[n] ==>
      match nodes[n][k]
      case Str(_) => true
      case List(ids) => forall i :: 0 <= i < |ids| ==> ids[i] < |nodes|
      case Ref(id) => id < |nodes|
  }

  predicate WellLinked(b: Build)
  {
    Linked(b.nodes)
    && (b.root.Some? ==> b.root.value < |b.nodes|)
    && (b.current.Some? ==> b.current.value < |b.nodes|)
  }

  /** The attribute map of a new node: each attribute in order, a repeated name keeping its last value. */
  function Attributes(attrs: seq<(string, string)>): (m: Node)
    ensures forall k :: k in m ==> m[k].Str?
    ensures forall i :: 0 <= i < |attrs| ==> attrs[i].0 in m
    ensures forall k :: k in m ==> exists i :: 0 <= i < |attrs| && attrs[i] == (k, m[k].s)
  {
    if attrs == [] then map[]
    else
      var n := |attrs| - 1;
      var m := Attributes(attrs[..n]);
      assert forall i :: 0 <= i < n ==> attrs[..n][i] == attrs[i];
      m[attrs[n].0 := Str(attrs[n].1)]
  }

  /** One pass of the loop body for one event. */
  function StepOn(b: Build, e: XmlEvent): (r: Step)
    requires WellLinked(b)
    ensures WellLinked(r.b)
    ensures |r.b.nodes| == |b.nodes| + (if e.StartTag? then 1 else 0)
  {
    match e
    case StartTag(name, attrs) =>
      var id := |b.nodes|;
      var root := if b.root.None? then Some(id) else b.root;
      if b.current.None? then
        Continue(Build(b.nodes + [Attributes(attrs)], root, Some(id)))
      else
        var p := b.current.value;
        var nodes := b.nodes + [Attributes(attrs)[ParentKey := Ref(p)]];
        if name in b.nodes[p] && !b.nodes[p][name].List? then
          Halt(Build(nodes, b.root, b.current), ClassCast)
        else
          var siblings := if name in b.nodes[p] then b.nodes[p][name].ids else [];
          Continue(Build(nodes[p := nodes[p][name := List(siblings + [id])]], root, Some(id)))
    case Text(t) =>
      if b.current.None? then Halt(b, NullPointer)
      else
        var c := b.current.value;
        Continue(b.(nodes := b.nodes[c := b.nodes[c][TextKey := Str(t)]]))
    case EndTag =>
      if b.current.None? then Continue(b)
      else
        var c := b.current.value;
        if ParentKey !in b.nodes[c] then Continue(b.(current := None))
        else if b.nodes[c][ParentKey].Ref? then
          Continue(Build(b.nodes[c := b.nodes[c] - {ParentKey}], b.root, Some(b.nodes[c][ParentKey].id)))
        else Halt(b, ClassCast)
    case Other => Continue(b)
    case Malformed => Halt(b, ParserError)
  }

  /** The number of START_TAG events in a stream. */
  function StartCount(events: seq<XmlEvent>): nat
  {
    if events == [] then 0
    else StartCount(events[..|events| - 1]) + (if events[|events| - 1].StartTag? then 1 else 0)
  }

  /** The loop over a whole event stream: the steps in order, stopping at the first exception. */
  function Run(b0: Build, events: seq<XmlEvent>): (r: Step)
    requires WellLinked(b0)
    ensures WellLinked(r.b)
    ensures r.Continue? ==> |r.b.nodes| == |b0.nodes| + StartCount(events)
  {
    if events == [] then Continue(b0)
    else
      match Run(b0, events[..|events| - 1])
      case Halt(b, why) => Halt(b, why)
      case Continue(b) => StepOn(b, events[|events| - 1])
  }

  /** The first START_TAG's node becomes the root, and no later event replaces a root once set. */
  lemma {:induction false} RootIsFixed(b0: Build, events: seq<XmlEvent>)
    requires WellLinked(b0)
    ensures b0.root.Some? ==> Run(b0, events).b.root == b0.root
    ensures b0.root.None? && b0.current.None? && |events| > 0 && events[0].StartTag? ==>
      Run(b0, events).b.root == Some(|b0.nodes|)
  {
    if events != [] {
      var n := |events| - 1;
      RootIsFixed(b0, events[..n]);
      var prev := Run(b0, events[..n]);
      if n > 0 {
        assert events[..n][0] == events[0];
      }
      if prev.Continue? {
        StepKeepsRoot(prev.b, events[n]);
      }
    }
  }

  /** One event keeps a root once set, and a START_TAG with no node open sets it to the new node. */
  lemma StepKeepsRoot(b: Build, e: XmlEvent)
    requires WellLinked(b)
    ensures b.root.Some? ==> StepOn(b, e).b.root == b.root
    ensures b.root.None? && b.current.None? && e.StartTag? ==> StepOn(b, e).b.root == Some(|b.nodes|)
  {
  }

  /** A START_TAG under an open node adds the new node at the end of that node's list for the element name. */
  lemma StartTagAppends(b: Build, name: string, attrs: seq<(string, string)>)
    requires WellLinked(b) && b.current.Some?
    requires StepOn(b, StartTag(name, attrs)).Continue?
    ensures var p := b.current.value;
      var after := StepOn(b, StartTag(name, attrs)).b.nodes;
      && name in after[p] && after[p][name].List?
      && after[p][name].ids == (if name in b.nodes[p] then b.nodes[p][name].ids else []) + [|b.nodes|]
      && after[|b.nodes|] == Attributes(attrs)[ParentKey := Ref(p)]
      && (forall n :: 0 <= n < |b.nodes| && n != p ==> after[n] == b.nodes[n])
      && (forall k :: k in b.nodes[p] && k != name ==> k in after[p] && after[p][k] == b.nodes[p][k])
      && (forall k :: k in after[p] ==> k == name || k in b.nodes[p])
      && (name in b.nodes[p] ==> b.nodes[p][name].List?)
  {
  }

  /** TEXT sets "CDATA" on the open node, replacing any earlier text, and touches nothing else. */
  lemma TextOverwrites(b: Build, t: string)
    requires WellLinked(b) && b.current.Some?
    ensures var after := StepOn(b, Text(t));
      var c := b.current.value;
      && after.Continue? && after.b.current == b.current && after.b.root == b.root
      && after.b.nodes[c][TextKey] == Str(t)
      && (forall k :: k in b.nodes[c] && k != TextKey ==> k in after.b.nodes[c] && after.b.nodes[c][k] == b.nodes[c][k])
      && (forall n :: 0 <= n < |b.nodes| && n != c ==> after.b.nodes[n] == b.nodes[n])
  {
  }

  /** Every child list keeps document order: its positions increase, and all come after the parent's. */
  predicate Ordered(nodes: seq<Node>)
  {
    forall n, k :: 0 <= n < |nodes| && k in nodes[n] && nodes[n][k].List? ==> InOrder(n, nodes[n][k].ids, |nodes|)
  }

  /** The children `ids` of node `n` come after it, in increasing order, inside a heap of `size` nodes. */
  predicate InOrder(n: nat, ids: seq<nat>, size: nat)
  {
    (forall i :: 0 <= i < |ids| ==> n < ids[i] < size)
    && (forall i, j :: 0 <= i < j < |ids| ==> ids[i] < ids[j])
  }

  lemma StepKeepsOrder(b: Build, e: XmlEvent)
    requires WellLinked(b) && Ordered(b.nodes)
    ensures Ordered(StepOn(b, e).b.nodes)
  {
    if e.StartTag? {
      StartTagKeepsOrder(b, e.name, e.attributes);
    }
  }

  /** A START_TAG appends the new node's position, the largest so far, to its parent's child list. */
  lemma StartTagKeepsOrder(b: Build, name: string, attrs: seq<(string, string)>)
    requires WellLinked(b) && Ordered(b.nodes)
    ensures Ordered(StepOn(b, StartTag(name, attrs)).b.nodes)
  {
    var r := StepOn(b, StartTag(name, attrs));
    var after: seq<Node> := r.b.nodes;
    forall n, k | 0 <= n < |after| && k in after[n] && after[n][k].List?
      ensures InOrder(n, after[n][k].ids, |after|)
    {
      if b.current.Some? && r.Continue? && n == b.current.value && k == name {
        StartTagAppends(b, name, attrs);
      } else if n < |b.nodes| {
        assert after[n][k] == b.nodes[n][k];
      }
    }
  }

  /** Sibling lists stay in document order through a whole run. */
  lemma {:induction false} RunKeepsOrder(b0: Build, events: seq<XmlEvent>)
    requires WellLinked(b0) && Ordered(b0.nodes)
    ensures Ordered(Run(b0, events).b.nodes)
  {
    if events != [] {
      var n := |events| - 1;
      RunKeepsOrder(b0, events[..n]);
      if Run(b0, events[..n]).Continue? {
        StepKeepsOrder(Run(b0, events[..n]).b, events[n]);
      }
    }
  }

  /** The number of elements open after a stream; an END_TAG with none open closes nothing. */
  function Depth(events: seq<XmlEvent>): nat
  {
    if events == [] then 0
    else
      var d := Depth(events[..|events| - 1]);
      match events[|events| - 1]
      case StartTag(_, _) => d + 1
      case EndTag => if d == 0 then 0 else d - 1
      case _ => d
  }

  /** The stack of open elements after one more event; `id` is the position a START_TAG's node takes. */
  function NextOpen(open: seq<nat>, e: XmlEvent, id: nat): seq<nat>
  {
    match e
    case StartTag(_, _) => open + [id]
    case EndTag => if open == [] then [] else open[..|open| - 1]
    case _ => open
  }

  /** The positions of the elements open after a stream whose first new node takes position `base`. */
  function Opened(events: seq<XmlEvent>, base: nat): (open: seq<nat>)
    ensures |open| == Depth(events)
  {
    if events == [] then []
    else
      var n := |events| - 1;
      NextOpen(Opened(events[..n], base), events[n], base + StartCount(events[..n]))
  }

  /**
   * How the "parent" links follow the open elements `open`: the last one is
   * `current`, each later one links back to the one before it, the first
   * has no link, and no other node has a "parent" key.
   */
  ghost predicate Nested(b: Build, open: seq<nat>)
  {
    && (forall i :: 0 <= i < |open| ==> open[i] < |b.nodes|)
    && (forall i, j :: 0 <= i < j < |open| ==> open[i] < open[j])
    && b.current == (if open == [] then None else Some(open[|open| - 1]))
    && (forall k :: 1 <= k < |open| ==> ParentKey in b.nodes[open[k]] && b.nodes[open[k]][ParentKey] == Ref(open[k - 1]))
    && (open != [] ==> ParentKey !in b.nodes[open[0]] || !b.nodes[open[0]][ParentKey].Ref?)
    && (forall n :: 0 <= n < |b.nodes| && n !in open ==> ParentKey !in b.nodes[n])
  }

  lemma StartTagNests(b: Build, open: seq<nat>, name: string, attrs: seq<(string, string)>)
    requires WellLinked(b) && Nested(b, open) && StepOn(b, StartTag(name, attrs)).Continue?
    ensures Nested(StepOn(b, StartTag(name, attrs)).b, open + [|b.nodes|])
  {
    if open == [] {
      var after := StepOn(b, StartTag(name, attrs)).b;
      assert after.nodes == b.nodes + [Attributes(attrs)];
      OpenTopNested(b, after);
      assert open + [|b.nodes|] == [|b.nodes|];
    } else {
      StartTagNestsUnder(b, open, name, attrs);
    }
  }

  /** Opening a node with no element open: the new node is the only open one and carries no link. */
  lemma OpenTopNested(b: Build, after: Build)
    requires Nested(b, [])
    requires |after.nodes| == |b.nodes| + 1 && after.current == Some(|b.nodes|)
    requires forall n :: 0 <= n < |b.nodes| ==> after.nodes[n] == b.nodes[n]
    requires forall k :: k in after.nodes[|b.nodes|] ==> after.nodes[|b.nodes|][k].Str?
    ensures Nested(after, [|b.nodes|])
  {
    forall n | 0 <= n < |after.nodes| && n !in [|b.nodes|]
      ensures ParentKey !in after.nodes[n]
    {
      assert n < |b.nodes|;
    }
  }

  /** A START_TAG inside an open element links the new node back to it and leaves the other links alone. */
  lemma StartTagNestsUnder(b: Build, open: seq<nat>, name: string, attrs: seq<(string, string)>)
    requires WellLinked(b) && Nested(b, open) && open != [] && StepOn(b, StartTag(name, attrs)).Continue?
    ensures Nested(StepOn(b, StartTag(name, attrs)).b, open + [|b.nodes|])
  {
    StartTagAppends(b, name, attrs);
    PushNested(b, open, StepOn(b, StartTag(name, attrs)).b);
  }

  /** Opening a node under the innermost open element `p`, with the links of every other node kept. */
  lemma PushNested(b: Build, open: seq<nat>, after: Build)
    requires Nested(b, open) && open != []
    requires |after.nodes| == |b.nodes| + 1 && after.current == Some(|b.nodes|)
    requires var p := open[|open| - 1];
      && ParentKey in after.nodes[|b.nodes|] && after.nodes[|b.nodes|][ParentKey] == Ref(p)
      && (forall n :: 0 <= n < |b.nodes| && n != p ==> after.nodes[n] == b.nodes[n])
      && (ParentKey in after.nodes[p] && after.nodes[p][ParentKey].Ref? ==>
            ParentKey in b.nodes[p] && after.nodes[p][ParentKey] == b.nodes[p][ParentKey])
      && (ParentKey in b.nodes[p] && b.nodes[p][ParentKey].Ref? ==>
            ParentKey in after.nodes[p] && after.nodes[p][ParentKey] == b.nodes[p][ParentKey])
    ensures Nested(after, open + [|b.nodes|])
  {
    var id := |b.nodes|;
    var open' := open + [id];
    var p := open[|open| - 1];
    forall k | 1 <= k < |open'|
      ensures ParentKey in after.nodes[open'[k]] && after.nodes[open'[k]][ParentKey] == Ref(open'[k - 1])
    {
      if k < |open| {
        assert open'[k] == open[k] && open'[k - 1] == open[k - 1];
      }
    }
    forall n | 0 <= n < |after.nodes| && n !in open'
      ensures ParentKey !in after.nodes[n]
    {
      assert n != p && n != id && n !in open;
    }
  }

  lemma EndTagNests(b: Build, open: seq<nat>)
    requires WellLinked(b) && Nested(b, open) && StepOn(b, EndTag).Continue?
    ensures Nested(StepOn(b, EndTag).b, NextOpen(open, EndTag, |b.nodes|))
  {
    if open != [] {
      var c := open[|open| - 1];
      var after := StepOn(b, EndTag).b;
      if |open| >= 2 {
        assert b.nodes[c][ParentKey] == Ref(open[|open| - 2]);
      } else {
        assert ParentKey !in b.nodes[c];
        assert b.nodes[c] - {ParentKey} == b.nodes[c];
      }
      PopNested(b, open, after);
    }
  }

  /** Closing the innermost open element `c`: its link is dropped and its parent, if any, is the open node again. */
  lemma PopNested(b: Build, open: seq<nat>, after: Build)
    requires Nested(b, open) && open != []
    requires var c := open[|open| - 1];
      && after.nodes == b.nodes[c := b.nodes[c] - {ParentKey}]
      && after.current == (if |open| >= 2 then Some(open[|open| - 2]) else None)
    ensures Nested(after, open[..|open| - 1])
  {
    var c := open[|open| - 1];
    var open' := open[..|open| - 1];
    forall k | 1 <= k < |open'|
      ensures ParentKey in after.nodes[open'[k]] && after.nodes[open'[k]][ParentKey] == Ref(open'[k - 1])
    {
      assert open'[k] == open[k] && open'[k - 1] == open[k - 1] && open[k] != c;
    }
    if open' != [] {
      assert open'[0] == open[0] && open[0] != c;
    }
    forall n | 0 <= n < |after.nodes| && n !in open'
      ensures ParentKey !in after.nodes[n]
    {
      if n != c {
        assert n !in open;
      }
    }
  }

  lemma StepNests(b: Build, open: seq<nat>, e: XmlEvent)
    requires WellLinked(b) && Nested(b, open)
    ensures StepOn(b, e).Continue? ==> Nested(StepOn(b, e).b, NextOpen(open, e, |b.nodes|))
  {
    if StepOn(b, e).Halt? {
      return;
    }
    match e
    case StartTag(name, attrs) => StartTagNests(b, open, name, attrs);
    case EndTag => EndTagNests(b, open);
    case Text(t) => TextOverwrites(b, t);
    case _ =>
  }

  lemma {:induction false} RunNests(b0: Build, events: seq<XmlEvent>)
    requires WellLinked(b0) && Nested(b0, [])
    ensures Run(b0, events).Continue? ==> Nested(Run(b0, events).b, Opened(events, |b0.nodes|))
  {
    if events != [] {
      var n := |events| - 1;
      RunNests(b0, events[..n]);
      var prev := Run(b0, events[..n]);
      if prev.Continue? {
        var open := Opened(events[..n], |b0.nodes|);
        assert Opened(events, |b0.nodes|) == NextOpen(open, events[n], |prev.b.nodes|);
        StepNests(prev.b, open, events[n]);
      }
    }
  }

  /**
   * A stream whose every element is closed, read without an exception from
   * a heap with no "parent" keys, leaves no "parent" key on any node and no
   * open node.
   */
  lemma WellNestedLeavesNoLinks(b0: Build, events: seq<XmlEvent>)
    requires WellLinked(b0) && b0.current.None?
    requires forall n :: 0 <= n < |b0.nodes| ==> ParentKey !in b0.nodes[n]
    requires Run(b0, events).Continue? && Depth(events) == 0
    ensures Run(b0, events).b.current.None?
    ensures forall n :: 0 <= n < |Run(b0, events).b.nodes| ==> ParentKey !in Run(b0, events).b.nodes[n]
  {
    RunNests(b0, events);
  }

  /**
   * The path helper `get(map, key, index)`: null for a null map or a
   * missing key, otherwise element `index` of the list under `key`; a value
   * that is not a list fails its cast, and a short list its index.
   */
  function Get(nodes: seq<Node>, m: Option<nat>, key: string, index: nat): (r: Result<Option<nat>, Exception>)
    requires Linked(nodes) && (m.Some? ==> m.value < |nodes|)
    ensures r == Ok(None) <==> m.None? || key !in nodes[m.value]
    ensures r.Err? <==> m.Some? && key in nodes[m.value] && (!nodes[m.value][key].List? || index >= |nodes[m.value][key].ids|)
    ensures r.Ok? && r.value.Some? ==> r.value.value == nodes[m.value][key].ids[index] && r.value.value < |nodes|
  {
    if m.None? || key !in nodes[m.value] then Ok(None)
    else
      match nodes[m.value][key]
      case List(ids) => if index < |ids| then Ok(Some(ids[index])) else Err(IndexOutOfBounds)
      case _ => Err(ClassCast)
  }

  /** `get` applied to the result of an earlier `get`, passing an exception on. */
  function Then(nodes: seq<Node>, m: Result<Option<nat>, Exception>, key: string, index: nat): (r: Result<Option<nat>, Exception>)
    requires Linked(nodes) && (m.Ok? && m.value.Some? ==> m.value.value < |nodes|)
    ensures m.Err? ==> r == m
    ensures r.Ok? && r.value.Some? ==> r.value.value < |nodes|
  {
    if m.Err? then m else Get(nodes, m.value, key, index)
  }

  /** `(String) map.get("CDATA")` on a map that may be null: the text, null when there is none. */
  function TextOf(nodes: seq<Node>, m: Result<Option<nat>, Exception>): (r: Result<Option<string>, Exception>)
    requires m.Ok? && m.value.Some? ==> m.value.value < |nodes|
    ensures m.Ok? && m.value.None? ==> r == Err(NullPointer)
    ensures r.Ok? && r.value.Some? ==> m.Ok? && m.value.Some? && TextKey in nodes[m.value.value] && nodes[m.value.value][TextKey] == Str(r.value.value)
  {
    if m.Err? then Err(m.error)
    else if m.value.None? then Err(NullPointer)
    else
      var n := nodes[m.value.value];
      if TextKey !in n then Ok(None)
      else if n[TextKey].Str? then Ok(Some(n[TextKey].s))
      else Err(ClassCast)
  }

  /** Once the loop stops on an exception, the rest of the stream changes nothing. */
  lemma {:induction false} RunStaysHalted(b0: Build, events: seq<XmlEvent>, i: nat)
    requires WellLinked(b0) && i <= |events| && Run(b0, events[..i]).Halt?
    ensures Run(b0, events) == Run(b0, events[..i])
    decreases |events| - i
  {
    if i < |events| {
      assert events[..i + 1][..i] == events[..i];
      RunStaysHalted(b0, events, i + 1);
    } else {
      assert events[..i] == events;
    }
  }
}
