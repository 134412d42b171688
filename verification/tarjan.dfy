// Tarjan's strongly-connected-components sort, used by the transaction flusher
// as the global order in which transactions are applied.

module Graphs {
  // An ObjectId is a fixed-width byte string; Go compares two of them as this
  // number read big-endian.
  type Id = nat

  type Graph = map<Id, seq<Id>>

  // Every successor is itself a key, as the flusher builds the map.
  ghost predicate Closed(g: Graph) {
    forall u, k :: u in g && 0 <= k < |g[u]| ==> g[u][k] in g
  }

  ghost predicate Edge(g: Graph, u: Id, v: Id) {
    u in g && v in g[u]
  }

  ghost predicate IsPath(g: Graph, p: seq<Id>, u: Id, v: Id) {
    && |p| > 0 && p[0] == u && p[|p| - 1] == v
    && forall i :: 0 <= i < |p| - 1 ==> Edge(g, p[i], p[i + 1])
  }

  ghost predicate Reach(g: Graph, u: Id, v: Id) {
    exists p :: IsPath(g, p, u, v)
  }

  lemma ReachRefl(g: Graph, u: Id)
    ensures Reach(g, u, u)
  {
    assert IsPath(g, [u], u, u);
  }

  lemma ReachEdge(g: Graph, u: Id, v: Id)
    requires Edge(g, u, v)
    ensures Reach(g, u, v)
  {
    assert IsPath(g, [u, v], u, v);
  }

  lemma ReachTrans(g: Graph, u: Id, v: Id, w: Id)
    requires Reach(g, u, v) && Reach(g, v, w)
    ensures Reach(g, u, w)
  {
    var p :| IsPath(g, p, u, v);
    var q :| IsPath(g, q, v, w);
    var r := p + q[1..];
    assert forall i :: |p| - 1 <= i < |r| ==> r[i] == q[i - |p| + 1];
    assert IsPath(g, r, u, w);
  }

  // A set closed under edges is closed under reachability.
  lemma ReachStaysIn(g: Graph, s: set<Id>, u: Id, v: Id)
    requires u in s && Reach(g, u, v)
    requires forall x, y :: x in s && Edge(g, x, y) ==> y in s
    ensures v in s
  {
    var p :| IsPath(g, p, u, v);
    var i := 0;
    while i < |p| - 1
      invariant 0 <= i <= |p| - 1 && p[i] in s
    {
      i := i + 1;
    }
  }
}

module Tarjan {
  import opened Graphs

  datatype Node = Node(lowlink: nat, stacked: bool)

  // A snapshot of the working data of the sort.
  datatype State = State(nodes: seq<Node>, stack: seq<Id>, index: map<Id, nat>, output: seq<seq<Id>>)

  ghost predicate InOutput(output: seq<seq<Id>>, v: Id) {
    exists i :: 0 <= i < |output| && v in output[i]
  }

  ghost predicate Mutual(g: Graph, u: Id, v: Id) {
    Reach(g, u, v) && Reach(g, v, u)
  }

  // index numbers the visited vertices, one node each.
  ghost predicate Indexed(g: Graph, s: State) {
    && s.index.Keys <= g.Keys
    && |s.nodes| == |s.index|
    && (forall v :: v in s.index ==> s.index[v] < |s.nodes|)
    && (forall u, v :: u in s.index && v in s.index && s.index[u] == s.index[v] ==> u == v)
  }

  ghost predicate StackOrdered(s: State) {
    && (forall i :: 0 <= i < |s.stack| ==> s.stack[i] in s.index)
    && (forall i, j :: 0 <= i < j < |s.stack| ==> s.index[s.stack[i]] < s.index[s.stack[j]])
  }

  // The stacked flags say who is on the stack.
  ghost predicate Flagged(s: State) {
    forall v :: v in s.index && s.index[v] < |s.nodes| ==> (s.nodes[s.index[v]].stacked <==> v in s.stack)
  }

  ghost predicate Numbered(g: Graph, s: State) {
    Indexed(g, s) && StackOrdered(s) && Flagged(s)
  }

  // A visited vertex is either still on the stack or in the output, never both.
  ghost predicate Split(s: State) {
    && (forall v :: v in s.index ==> v in s.stack || InOutput(s.output, v))
    && (forall i, v :: 0 <= i < |s.output| && v in s.output[i] ==> v in s.index && v !in s.stack)
  }

  // The vertices of the current call chain are gray.
  ghost predicate Colored(g: Graph, s: State, gray: set<Id>) {
    && (forall x :: x in gray ==> x in s.stack)
    && (forall u, v :: u in s.index && u !in gray && Edge(g, u, v) ==> v in s.index)
  }

  // Every stacked vertex reaches those above it, and some gray one below it.
  ghost predicate StackReach(g: Graph, s: State) {
    forall x, y :: x in s.stack && y in s.stack && x in s.index && y in s.index && s.index[x] <= s.index[y] ==> Reach(g, x, y)
  }

  ghost predicate HasGray(g: Graph, s: State, gray: set<Id>, y: Id) {
    y in s.index && exists x :: x in gray && x in s.index && s.index[x] <= s.index[y] && Reach(g, y, x)
  }

  ghost predicate BackToGray(g: Graph, s: State, gray: set<Id>) {
    forall y {:trigger HasGray(g, s, gray, y)} :: y in s.stack ==> HasGray(g, s, gray, y)
  }

  ghost predicate NoDup(xs: seq<Id>) {
    forall i, j :: 0 <= i < j < |xs| ==> xs[i] != xs[j]
  }

  // What an output list promises: each group is one class of mutual
  // reachability, listed once, and edges never lead to a later group.
  ghost predicate GroupsAreClasses(g: Graph, output: seq<seq<Id>>) {
    forall i, u, v :: 0 <= i < |output| && u in output[i] ==> (v in output[i] <==> Mutual(g, u, v))
  }

  ghost predicate GroupsDistinct(output: seq<seq<Id>>) {
    && (forall i :: 0 <= i < |output| ==> |output[i]| > 0 && NoDup(output[i]))
    && (forall i, j, v :: 0 <= i < j < |output| && v in output[i] ==> v !in output[j])
  }

  ghost predicate EdgesGoBack(g: Graph, output: seq<seq<Id>>) {
    forall i, u, v :: 0 <= i < |output| && u in output[i] && Edge(g, u, v) ==>
      exists j :: 0 <= j <= i && v in output[j]
  }

  ghost predicate Sorted(g: Graph, output: seq<seq<Id>>) {
    GroupsAreClasses(g, output) && GroupsDistinct(output) && EdgesGoBack(g, output)
  }

  ghost predicate Inv(g: Graph, s: State, gray: set<Id>) {
    && Closed(g) && Numbered(g, s) && Split(s) && Colored(g, s, gray)
    && StackReach(g, s) && BackToGray(g, s, gray) && Sorted(g, s.output)
  }

  // How a finished call leaves the data of its caller: everything it had is
  // kept, in particular the nodes numbered before.
  ghost predicate Extends(s: State, t: State) {
    && s.nodes <= t.nodes && s.stack <= t.stack && s.output <= t.output
    && (forall v :: v in s.index ==> v in t.index && t.index[v] == s.index[v])
  }

  // low is the number of a stacked vertex that id reaches.
  ghost predicate Witness(g: Graph, s: State, id: Id, low: nat) {
    exists y :: y in s.stack && y in s.index && s.index[y] == low && Reach(g, id, y)
  }

  // No edge from the stack above position n enters the part below position m
  // at a number less than low.
  ghost predicate LowBound(g: Graph, s: State, n: nat, m: nat, low: nat)
    requires m <= |s.stack|
  {
    forall k, y :: n <= k < |s.stack| && y in s.stack[..m] && y in s.index && Edge(g, s.stack[k], y) ==> low <= s.index[y]
  }

  // The postcondition of strongConnect(id) started in s and ended in t.
  ghost predicate Connected(g: Graph, s: State, t: State, gray: set<Id>, id: Id, low: nat) {
    && Inv(g, t, gray) && Extends(s, t)
    && id in t.index && t.index[id] == |s.nodes| && |s.nodes| < |t.nodes|
    && low == t.nodes[|s.nodes|].lowlink <= t.index[id]
    && (low < t.index[id] ==> Witness(g, t, id, low))
    && (low == t.index[id] ==> t.stack == s.stack)
    && LowBound(g, t, |s.stack|, |s.stack|, low)
  }

  function Pushed(s: State, id: Id): State {
    State(s.nodes + [Node(|s.nodes|, true)], s.stack + [id], s.index[id := |s.nodes|], s.output)
  }

  lemma PushKeepsInv(g: Graph, s: State, gray: set<Id>, id: Id)
    requires Inv(g, s, gray) && id in g && id !in s.index
    requires forall x :: x in gray ==> Reach(g, x, id)
    ensures Inv(g, Pushed(s, id), gray + {id})
  {
    hide StackReach, BackToGray, Sorted, Split, Closed, Reach, Numbered, Colored;
    PushNumbered(g, s, id);
    PushColored(g, s, gray, id);
    PushSplit(s, id);
    PushReach(g, s, gray, id);
  }

  lemma PushNumbered(g: Graph, s: State, id: Id)
    requires Numbered(g, s) && id in g && id !in s.index
    ensures Numbered(g, Pushed(s, id))
  {
    PushIndexed(g, s, id);
    PushOrdered(g, s, id);
    PushFlagged(g, s, id);
    hide Indexed, StackOrdered, Flagged;
  }

  lemma PushIndexed(g: Graph, s: State, id: Id)
    requires Indexed(g, s) && id in g && id !in s.index
    ensures Indexed(g, Pushed(s, id))
  {
    assert Pushed(s, id).index.Keys == s.index.Keys + {id};
  }

  lemma PushOrdered(g: Graph, s: State, id: Id)
    requires Indexed(g, s) && StackOrdered(s) && id !in s.index
    ensures StackOrdered(Pushed(s, id))
  {
  }

  lemma PushFlagged(g: Graph, s: State, id: Id)
    requires Indexed(g, s) && StackOrdered(s) && Flagged(s) && id !in s.index
    ensures Flagged(Pushed(s, id))
  {
    var t := Pushed(s, id);
    assert id !in s.stack;
    forall v | v in t.index && t.index[v] < |t.nodes| ensures t.nodes[t.index[v]].stacked <==> v in t.stack {
      if v != id { assert s.nodes[s.index[v]].stacked <==> v in s.stack; }
    }
  }

  lemma PushColored(g: Graph, s: State, gray: set<Id>, id: Id)
    requires Colored(g, s, gray)
    ensures Colored(g, Pushed(s, id), gray + {id})
  {
    hide Edge;
  }

  lemma PushSplit(s: State, id: Id)
    requires Split(s) && id !in s.index
    ensures Split(Pushed(s, id))
  {
    var t := Pushed(s, id);
    forall v | v in t.index ensures v in t.stack || InOutput(t.output, v) {
      if v != id && v !in s.stack { assert InOutput(s.output, v); }
    }
  }

  lemma PushReach(g: Graph, s: State, gray: set<Id>, id: Id)
    requires Numbered(g, s) && StackReach(g, s) && BackToGray(g, s, gray) && id !in s.index
    requires forall x :: x in gray ==> Reach(g, x, id)
    ensures StackReach(g, Pushed(s, id)) && BackToGray(g, Pushed(s, id), gray + {id})
  {
    var t := Pushed(s, id);
    ReachRefl(g, id);
    forall x | x in s.stack ensures Reach(g, x, id) && HasGray(g, t, gray + {id}, x) {
      assert HasGray(g, s, gray, x);
      var z :| z in gray && z in s.index && s.index[z] <= s.index[x] && Reach(g, x, z);
      ReachTrans(g, x, z, id);
      assert z in gray + {id} && z in t.index && t.index[z] <= t.index[x];
    }
    assert id in gray + {id} && t.index[id] <= t.index[id];
  }

  function WithLow(s: State, i: nat, low: nat): State
    requires i < |s.nodes|
  {
    s.(nodes := s.nodes[i := s.nodes[i].(lowlink := low)])
  }

  lemma WithLowKeepsInv(g: Graph, s: State, gray: set<Id>, i: nat, low: nat)
    requires Inv(g, s, gray) && i < |s.nodes|
    ensures Inv(g, WithLow(s, i, low), gray)
  {
    var t := WithLow(s, i, low);
    assert Numbered(g, t) by {
      assert forall v :: v in t.index ==> t.nodes[t.index[v]].stacked == s.nodes[s.index[v]].stacked;
    }
    NodesDoNotMatter(g, s, gray, t.nodes);
  }

  lemma NodesDoNotMatter(g: Graph, s: State, gray: set<Id>, nodes: seq<Node>)
    requires Split(s) && Colored(g, s, gray) && StackReach(g, s) && BackToGray(g, s, gray)
    ensures Split(s.(nodes := nodes)) && Colored(g, s.(nodes := nodes), gray)
    ensures StackReach(g, s.(nodes := nodes)) && BackToGray(g, s.(nodes := nodes), gray)
  {
    hide Reach, InOutput;
    forall y | y in s.stack ensures HasGray(g, s.(nodes := nodes), gray, y) {
      assert HasGray(g, s, gray, y);
    }
  }

  // When id is no root it stops being gray: what returned to it returns further.
  lemma NonRootKeepsInv(g: Graph, s: State, gray: set<Id>, id: Id, low: nat)
    requires Inv(g, s, gray + {id}) && id in s.index
    requires forall v :: Edge(g, id, v) ==> v in s.index
    requires Witness(g, s, id, low) && low < s.index[id]
    ensures Inv(g, s, gray)
  {
    hide Sorted, StackReach, Split, Closed, Reach, Numbered;
    BackPastId(g, s, gray, id, low);
    assert Colored(g, s, gray) by {
      hide BackToGray, HasGray, Witness;
      forall u, v | u in s.index && u !in gray && Edge(g, u, v) ensures v in s.index {
        if u != id { assert u !in gray + {id}; }
      }
    }
  }

  lemma BackPastId(g: Graph, s: State, gray: set<Id>, id: Id, low: nat)
    requires BackToGray(g, s, gray + {id}) && id in s.index
    requires Witness(g, s, id, low) && low < s.index[id]
    ensures BackToGray(g, s, gray)
  {
    hide Reach;
    var w :| w in s.stack && w in s.index && s.index[w] == low && Reach(g, id, w);
    assert HasGray(g, s, gray + {id}, w);
    var z :| z in gray + {id} && z in s.index && s.index[z] <= low && Reach(g, w, z);
    ReachTrans(g, id, w, z);
    forall y | y in s.stack ensures HasGray(g, s, gray, y) {
      assert HasGray(g, s, gray + {id}, y);
      var x :| x in gray + {id} && x in s.index && s.index[x] <= s.index[y] && Reach(g, y, x);
      if x == id {
        ReachTrans(g, y, id, z);
        assert z in gray;
      }
    }
  }

  function Reversed(xs: seq<Id>): (r: seq<Id>)
    ensures |r| == |xs| && forall i :: 0 <= i < |xs| ==> r[i] == xs[|xs| - 1 - i]
  {
    if xs == [] then [] else Reversed(xs[1..]) + [xs[0]]
  }

  lemma ReversedHasSame(xs: seq<Id>)
    ensures forall v :: v in Reversed(xs) <==> v in xs
  {
    var r := Reversed(xs);
    forall v | v in xs ensures v in r {
      var i :| 0 <= i < |xs| && xs[i] == v;
      assert r[|xs| - 1 - i] == v;
    }
    forall v | v in r ensures v in xs {
      var i :| 0 <= i < |r| && r[i] == v;
      assert xs[|xs| - 1 - i] == v;
    }
  }

  // The state after popping the stack down to height n as one component.
  ghost predicate Popped(s: State, n: nat, t: State) {
    && n < |s.stack| && |t.nodes| == |s.nodes|
    && t.stack == s.stack[..n] && t.index == s.index
    && t.output == s.output + [Reversed(s.stack[n..])]
    && (forall i :: 0 <= i < |s.nodes| ==> t.nodes[i].lowlink == s.nodes[i].lowlink)
    && (forall v :: v in s.index && s.index[v] < |s.nodes| ==>
          t.nodes[s.index[v]].stacked == (s.nodes[s.index[v]].stacked && v !in s.stack[n..]))
    && (forall i :: 0 <= i < |s.nodes| && s.stack[n] in s.index && i < s.index[s.stack[n]] ==> t.nodes[i] == s.nodes[i])
  }

  // The call on s.stack[n] has visited all its successors and found no edge
  // from its part of the stack to a lower vertex.
  ghost predicate RootAt(g: Graph, s: State, gray: set<Id>, n: nat) {
    && n < |s.stack| && Numbered(g, s) && Split(s) && Colored(g, s, gray + {s.stack[n]})
    && StackReach(g, s) && BackToGray(g, s, gray + {s.stack[n]}) && Sorted(g, s.output)
    && (forall x :: x in gray ==> x in s.stack[..n])
    && (forall y :: Edge(g, s.stack[n], y) ==> y in s.index)
    && LowBound(g, s, n, n, s.index[s.stack[n]])
  }

  ghost function Finished(s: State): set<Id> {
    set i, x | 0 <= i < |s.output| && x in s.output[i] :: x
  }

  lemma BelowIsLower(g: Graph, s: State, n: nat, z: Id)
    requires Numbered(g, s) && n < |s.stack| && z in s.stack[..n]
    ensures z in s.stack && s.index[z] < s.index[s.stack[n]]
  {
    var j :| 0 <= j < n && s.stack[j] == z;
  }

  lemma AboveIsHigher(g: Graph, s: State, n: nat, z: Id)
    requires Numbered(g, s) && n < |s.stack| && z in s.stack[n..]
    ensures z in s.stack && s.index[s.stack[n]] <= s.index[z]
  {
    var j :| n <= j < |s.stack| && s.stack[j] == z;
  }

  // Each popped vertex and the root reach one another.
  lemma ComponentIsMutual(g: Graph, s: State, gray: set<Id>, n: nat, v: Id)
    requires RootAt(g, s, gray, n) && v in s.stack[n..]
    ensures Mutual(g, s.stack[n], v)
  {
    hide Sorted, Colored, LowBound, Split, Reach;
    var id := s.stack[n];
    AboveIsHigher(g, s, n, v);
    assert id in s.stack;
    assert Reach(g, id, v);
    assert HasGray(g, s, gray + {id}, v);
    var z :| z in gray + {id} && z in s.index && s.index[z] <= s.index[v] && Reach(g, v, z);
    if z != id {
      BelowIsLower(g, s, n, z);
      assert Reach(g, z, id);
      ReachTrans(g, v, z, id);
    }
  }

  lemma NoEdgeDown(g: Graph, s: State, gray: set<Id>, n: nat, x: Id, y: Id)
    requires RootAt(g, s, gray, n) && x in s.stack[n..] && y in s.stack[..n]
    ensures !Edge(g, x, y)
  {
    hide Sorted, StackReach, BackToGray, Reach, InOutput, Split, Colored;
    var k :| n <= k < |s.stack| && s.stack[k] == x;
    BelowIsLower(g, s, n, y);
  }

  lemma RegionClosed(g: Graph, s: State, gray: set<Id>, n: nat, x: Id, y: Id)
    requires RootAt(g, s, gray, n) && x in s.stack[n..] && Edge(g, x, y)
    ensures y in s.stack[n..] || InOutput(s.output, y)
  {
    hide RootAt, InOutput, Edge;
    RegionVisited(g, s, gray, n, x, y);
    if !InOutput(s.output, y) {
      InParts(s.stack, n, y);
      if y in s.stack[..n] { NoEdgeDown(g, s, gray, n, x, y); }
    }
  }

  lemma InParts(xs: seq<Id>, n: nat, v: Id)
    requires n <= |xs| && v in xs
    ensures v in xs[..n] || v in xs[n..]
  {
    assert xs == xs[..n] + xs[n..];
  }

  lemma RegionVisited(g: Graph, s: State, gray: set<Id>, n: nat, x: Id, y: Id)
    requires RootAt(g, s, gray, n) && x in s.stack[n..] && Edge(g, x, y)
    ensures n < |s.stack| && y in s.index && (y in s.stack || InOutput(s.output, y))
  {
    hide Sorted, StackReach, BackToGray, LowBound, InOutput;
    AboveIsHigher(g, s, n, x);
    if x in gray { BelowIsLower(g, s, n, x); }
    hide Numbered, Edge;
  }

  lemma FinishedNotMutual(g: Graph, s: State, id: Id, v: Id)
    requires GroupsAreClasses(g, s.output) && Split(s) && id in s.stack && v in Finished(s)
    ensures !Mutual(g, id, v)
  {
    var i :| 0 <= i < |s.output| && v in s.output[i];
    assert id !in s.output[i];
    assert !Mutual(g, v, id);
  }

  lemma FinishedClosed(g: Graph, s: State, x: Id, y: Id)
    requires EdgesGoBack(g, s.output) && x in Finished(s) && Edge(g, x, y)
    ensures y in Finished(s)
  {
    var i :| 0 <= i < |s.output| && x in s.output[i];
    var j :| 0 <= j <= i && y in s.output[j];
  }

  // The popped component is exactly one class of mutual reachability.
  lemma RootIsClass(g: Graph, s: State, gray: set<Id>, n: nat, v: Id)
    requires RootAt(g, s, gray, n)
    ensures v in s.stack[n..] <==> Mutual(g, s.stack[n], v)
  {
    hide StackReach, BackToGray, Colored, LowBound, Reach, GroupsDistinct, EdgesGoBack;
    var id := s.stack[n];
    var region := (set x | x in s.stack[n..]) + Finished(s);
    if v in s.stack[n..] {
      ComponentIsMutual(g, s, gray, n, v);
    }
    if Mutual(g, id, v) {
      forall x, y | x in region && Edge(g, x, y) ensures y in region {
        if x in s.stack[n..] { RegionClosed(g, s, gray, n, x, y); } else { FinishedClosed(g, s, x, y); }
      }
      assert s.stack[n..][0] == id;
      ReachStaysIn(g, region, id, v);
      if v in Finished(s) { FinishedNotMutual(g, s, id, v); }
    }
  }

  lemma RootKeepsInv(g: Graph, s: State, gray: set<Id>, n: nat, t: State)
    requires Closed(g) && RootAt(g, s, gray, n) && Popped(s, n, t)
    ensures Inv(g, t, gray)
  {
    hide Sorted, LowBound, Split, StackReach, BackToGray;
    PoppedNumbered(g, s, n, t);
    PoppedSplit(g, s, n, t);
    PoppedReach(g, s, gray, n, t);
    PoppedOutput(g, s, gray, n, t);
    assert Colored(g, t, gray);
  }

  lemma PoppedReach(g: Graph, s: State, gray: set<Id>, n: nat, t: State)
    requires RootAt(g, s, gray, n) && Popped(s, n, t)
    ensures StackReach(g, t) && BackToGray(g, t, gray)
  {
    hide Sorted, Reach, LowBound, Split, Colored;
    assert forall x :: x in t.stack ==> x in s.stack;
    forall y | y in t.stack ensures HasGray(g, t, gray, y) {
      assert HasGray(g, s, gray + {s.stack[n]}, y);
      BelowIsLower(g, s, n, y);
    }
  }

  lemma PoppedOutput(g: Graph, s: State, gray: set<Id>, n: nat, t: State)
    requires RootAt(g, s, gray, n) && Popped(s, n, t)
    ensures Sorted(g, t.output)
  {
    hide Sorted, LowBound, StackReach, BackToGray, Colored, Reach, InOutput;
    ReversedHasSame(s.stack[n..]);
    forall v ensures v in Reversed(s.stack[n..]) <==> Mutual(g, s.stack[n], v) { RootIsClass(g, s, gray, n, v); }
    forall x, y | x in s.stack[n..] && Edge(g, x, y) ensures y in s.stack[n..] || InOutput(s.output, y) {
      RegionClosed(g, s, gray, n, x, y);
    }
    StackNoDup(s);
    PoppedSorted(g, s, n, t);
  }

  lemma StackNoDup(s: State)
    requires forall i :: 0 <= i < |s.stack| ==> s.stack[i] in s.index
    requires forall i, j :: 0 <= i < j < |s.stack| ==> s.index[s.stack[i]] < s.index[s.stack[j]]
    ensures NoDup(s.stack)
  {
  }

  lemma PoppedNumbered(g: Graph, s: State, n: nat, t: State)
    requires Numbered(g, s) && Popped(s, n, t)
    ensures Numbered(g, t)
  {
    forall v | v in t.index ensures t.nodes[t.index[v]].stacked <==> v in t.stack {
      PoppedFlag(g, s, n, t, v);
    }
  }

  lemma PoppedFlag(g: Graph, s: State, n: nat, t: State, v: Id)
    requires Numbered(g, s) && Popped(s, n, t) && v in t.index
    ensures t.nodes[t.index[v]].stacked <==> v in t.stack
  {
    assert s.stack == s.stack[..n] + s.stack[n..];
    if v in s.stack[..n] { BelowIsLower(g, s, n, v); }
    if v in s.stack[n..] { AboveIsHigher(g, s, n, v); }
  }

  lemma PoppedSplit(g: Graph, s: State, n: nat, t: State)
    requires Numbered(g, s) && Split(s) && Popped(s, n, t)
    ensures Split(t)
  {
    hide Numbered;
    ReversedHasSame(s.stack[n..]);
    assert s.stack == s.stack[..n] + s.stack[n..];
    forall v | v in t.index ensures v in t.stack || InOutput(t.output, v) {
      if v in s.stack[n..] {
        assert v in t.output[|s.output|];
      } else if v !in s.stack {
        assert InOutput(s.output, v);
        var i :| 0 <= i < |s.output| && v in s.output[i];
        assert v in t.output[i];
      }
    }
    forall i, v | 0 <= i < |t.output| && v in t.output[i] ensures v in t.index && v !in t.stack {
      hide InOutput;
      if i < |s.output| {
        assert v in s.output[i];
      } else {
        ComponentLeavesStack(g, s, n, v);
      }
    }
  }

  lemma ComponentLeavesStack(g: Graph, s: State, n: nat, v: Id)
    requires Numbered(g, s) && n < |s.stack| && v in s.stack[n..]
    ensures v in s.index && v !in s.stack[..n]
  {
    AboveIsHigher(g, s, n, v);
    if v in s.stack[..n] { BelowIsLower(g, s, n, v); }
  }

  lemma PoppedSorted(g: Graph, s: State, n: nat, t: State)
    requires Popped(s, n, t) && Sorted(g, s.output) && Split(s) && NoDup(s.stack)
    requires forall v :: v in Reversed(s.stack[n..]) <==> Mutual(g, s.stack[n], v)
    requires forall x, y :: x in s.stack[n..] && Edge(g, x, y) ==> y in s.stack[n..] || InOutput(s.output, y)
    ensures Sorted(g, t.output)
  {
    var m, id, scc := |s.output|, s.stack[n], Reversed(s.stack[n..]);
    ReversedHasSame(s.stack[n..]);
    assert t.output[m] == scc && forall i :: 0 <= i < m ==> t.output[i] == s.output[i];
    forall i, u, v | 0 <= i < |t.output| && u in t.output[i]
      ensures v in t.output[i] <==> Mutual(g, u, v)
    {
      if i == m {
        MutualShift(g, id, u, v);
      }
    }
    assert forall v :: v in scc ==> v in s.stack;
    forall i, j, v | 0 <= i < j < |t.output| && v in t.output[i] ensures v !in t.output[j] {
      assert v in s.output[i];
    }
    forall i, u, v | 0 <= i < |t.output| && u in t.output[i] && Edge(g, u, v)
      ensures exists j :: 0 <= j <= i && v in t.output[j]
    {
      if i < m {
        var j :| 0 <= j <= i && v in s.output[j];
        assert v in t.output[j];
      } else if v in s.stack[n..] {
        assert v in t.output[m];
      } else {
        var j :| 0 <= j < m && v in s.output[j];
        assert v in t.output[j];
      }
    }
  }

  lemma MutualShift(g: Graph, a: Id, u: Id, v: Id)
    requires Mutual(g, a, u)
    ensures Mutual(g, a, v) <==> Mutual(g, u, v)
  {
    if Mutual(g, a, v) {
      ReachTrans(g, u, a, v);
      ReachTrans(g, v, a, u);
    }
    if Mutual(g, u, v) {
      ReachTrans(g, a, u, v);
      ReachTrans(g, v, u, a);
    }
  }

  // The loop of strongConnect(id), entered in s, after k successors, in t.
  ghost predicate Visiting(g: Graph, s: State, t: State, gray: set<Id>, id: Id, k: nat, low: nat) {
    && Inv(g, t, gray + {id}) && id in g && k <= |g[id]|
    && s.nodes <= t.nodes && s.output <= t.output && s.stack + [id] <= t.stack
    && (forall v :: v in s.index ==> v in t.index && t.index[v] == s.index[v])
    && id in t.index && t.index[id] == |s.nodes| && |s.nodes| < |t.nodes|
    && low == t.nodes[|s.nodes|].lowlink <= |s.nodes|
    && Witness(g, t, id, low)
    && LowBound(g, t, |s.stack| + 1, |s.stack|, low)
    && Visited(g, s, t, id, k, low)
  }

  ghost predicate Visited(g: Graph, s: State, t: State, id: Id, k: nat, low: nat)
    requires id in g && k <= |g[id]|
  {
    forall j :: 0 <= j < k ==> g[id][j] in t.index && (g[id][j] in s.stack ==> low <= t.index[g[id][j]])
  }

  lemma VisitStart(g: Graph, s: State, gray: set<Id>, id: Id)
    requires Inv(g, s, gray) && id in g && id !in s.index
    requires forall x :: x in gray ==> Reach(g, x, id)
    ensures Visiting(g, s, Pushed(s, id), gray, id, 0, |s.nodes|)
  {
    hide Inv, Reach, Witness, Edge;
    PushKeepsInv(g, s, gray, id);
    StartWitness(g, Pushed(s, id), id);
  }

  lemma StartWitness(g: Graph, t: State, id: Id)
    requires id in t.stack && id in t.index
    ensures Witness(g, t, id, t.index[id])
  {
    ReachRefl(g, id);
  }

  lemma LowerWitness(g: Graph, s: State, t: State, id: Id, low: nat)
    requires Witness(g, s, id, low) && s.stack <= t.stack
    requires forall v :: v in s.index ==> v in t.index && t.index[v] == s.index[v]
    ensures Witness(g, t, id, low)
  {
    hide Reach;
    var y :| y in s.stack && y in s.index && s.index[y] == low && Reach(g, id, y);
    assert y in t.stack;
  }

  // A successor met before: it lowers the link only while it is stacked.
  lemma VisitSeen(g: Graph, s: State, t: State, gray: set<Id>, id: Id, k: nat, low: nat, low': nat)
    requires Visiting(g, s, t, gray, id, k, low) && k < |g[id]| && g[id][k] in t.index
    requires low' == if g[id][k] in t.stack && t.index[g[id][k]] < low then t.index[g[id][k]] else low
    ensures Visiting(g, s, WithLow(t, |s.nodes|, low'), gray, id, k + 1, low')
  {
    hide Inv, Reach, Witness, LowBound, Visited;
    var t' := WithLow(t, |s.nodes|, low');
    WithLowKeepsInv(g, t, gray + {id}, |s.nodes|, low');
    if g[id][k] in s.stack { PrefixHas(s.stack + [id], t.stack, g[id][k]); }
    if low' < low { EdgeWitness(g, t', id, g[id][k]); } else { LowerWitness(g, t, t', id, low); }
    SameStackLowBound(g, t, t', |s.stack| + 1, |s.stack|, low, low');
    SeenVisited(g, s, t, t', id, k, low, low');
  }

  lemma PrefixHas(xs: seq<Id>, ys: seq<Id>, v: Id)
    requires xs <= ys && v in xs
    ensures v in ys
  {
    var i :| 0 <= i < |xs| && xs[i] == v;
    assert ys[i] == v;
  }

  lemma EdgeWitness(g: Graph, t: State, id: Id, v: Id)
    requires Edge(g, id, v) && v in t.stack && v in t.index
    ensures Witness(g, t, id, t.index[v])
  {
    ReachEdge(g, id, v);
  }

  lemma SameStackLowBound(g: Graph, t: State, u: State, n: nat, m: nat, low: nat, low': nat)
    requires m <= |t.stack| && t.stack == u.stack && t.index == u.index && low' <= low && LowBound(g, t, n, m, low)
    ensures LowBound(g, u, n, m, low')
  {
    forall k, y | n <= k < |u.stack| && y in u.stack[..m] && y in u.index && Edge(g, u.stack[k], y) ensures low' <= u.index[y] {
      assert y in t.stack[..m] && Edge(g, t.stack[k], y);
    }
  }

  lemma SeenVisited(g: Graph, s: State, t: State, u: State, id: Id, k: nat, low: nat, low': nat)
    requires id in g && k < |g[id]| && Visited(g, s, t, id, k, low) && low' <= low
    requires forall v :: v in t.index ==> v in u.index && u.index[v] == t.index[v]
    requires g[id][k] in u.index
    requires g[id][k] in s.stack ==> low' <= u.index[g[id][k]]
    ensures Visited(g, s, u, id, k + 1, low')
  {
  }

  lemma StackIndexed(g: Graph, t: State, gray: set<Id>)
    requires Inv(g, t, gray)
    ensures Closed(g) && Numbered(g, t)
    ensures forall x :: x in gray ==> x in t.stack
    ensures forall x :: x in t.stack ==> x in t.index && t.index[x] < |t.nodes|
  {
  }

  // A successor visited by a nested call.
  lemma VisitChild(g: Graph, s: State, t: State, u: State, gray: set<Id>, id: Id, k: nat, low: nat, childLow: nat)
    requires Visiting(g, s, t, gray, id, k, low) && k < |g[id]| && g[id][k] !in t.index && g[id][k] !in s.stack
    requires Connected(g, t, u, gray + {id}, g[id][k], childLow)
    ensures |s.nodes| < |u.nodes| && u.nodes[|s.nodes|].lowlink == low
    ensures var low' := if childLow < low then childLow else low;
      Visiting(g, s, WithLow(u, |s.nodes|, low'), gray, id, k + 1, low')
  {
    hide Inv, Reach, Witness, LowBound, Visited;
    StackIndexed(g, t, gray + {id});
    var low' := if childLow < low then childLow else low;
    var u' := WithLow(u, |s.nodes|, low');
    WithLowKeepsInv(g, u, gray + {id}, |s.nodes|, low');
    if childLow < low {
      ChildWitness(g, u, id, g[id][k], childLow);
      LowerWitness(g, u, u', id, childLow);
    } else {
      LowerWitness(g, t, u', id, low);
    }
    ChildLowBound(g, s, t, u, low, childLow);
    SameStackLowBound(g, u, u', |s.stack| + 1, |s.stack|, low', low');
    SeenVisited(g, s, t, u', id, k, low, low');
  }

  lemma ChildWitness(g: Graph, u: State, id: Id, child: Id, low: nat)
    requires Edge(g, id, child) && Witness(g, u, child, low)
    ensures Witness(g, u, id, low)
  {
    hide Reach;
    var y :| y in u.stack && y in u.index && u.index[y] == low && Reach(g, child, y);
    ReachEdge(g, id, child);
    ReachTrans(g, id, child, y);
  }

  lemma ChildLowBound(g: Graph, s: State, t: State, u: State, low: nat, childLow: nat)
    requires |s.stack| < |t.stack| && s.stack <= t.stack <= u.stack
    requires forall v :: v in t.index ==> v in u.index && u.index[v] == t.index[v]
    requires forall x :: x in t.stack ==> x in t.index
    requires LowBound(g, t, |s.stack| + 1, |s.stack|, low)
    requires LowBound(g, u, |t.stack|, |t.stack|, childLow)
    ensures LowBound(g, u, |s.stack| + 1, |s.stack|, if childLow < low then childLow else low)
  {
    forall k, y | |s.stack| + 1 <= k < |u.stack| && y in u.stack[..|s.stack|] && y in u.index && Edge(g, u.stack[k], y)
      ensures (if childLow < low then childLow else low) <= u.index[y]
    {
      assert u.stack[..|s.stack|] == t.stack[..|s.stack|];
      assert y in t.stack && y in t.index;
      if k < |t.stack| {
        assert Edge(g, t.stack[k], y);
      } else {
        assert y in u.stack[..|t.stack|];
      }
    }
  }

  lemma VisitLowBound(g: Graph, s: State, t: State, gray: set<Id>, id: Id, low: nat)
    requires id in g && Visiting(g, s, t, gray, id, |g[id]|, low)
    ensures LowBound(g, t, |s.stack|, |s.stack|, low)
  {
    hide Inv, Witness;
    assert t.stack[|s.stack|] == id && t.stack[..|s.stack|] == s.stack;
  }

  lemma VisitEndNonRoot(g: Graph, s: State, t: State, gray: set<Id>, id: Id, low: nat)
    requires id in g && Visiting(g, s, t, gray, id, |g[id]|, low) && low < t.index[id]
    ensures Connected(g, s, t, gray, id, low)
  {
    VisitLowBound(g, s, t, gray, id, low);
    NonRootKeepsInv(g, t, gray, id, low);
    hide Inv, Witness, LowBound, Visited;
  }

  lemma VisitEndRoot(g: Graph, s: State, t: State, u: State, gray: set<Id>, id: Id, low: nat)
    requires id in g && Visiting(g, s, t, gray, id, |g[id]|, low) && low == t.index[id]
    requires forall x :: x in gray ==> x in s.stack
    requires Popped(t, |s.stack|, u)
    ensures Connected(g, s, u, gray, id, low)
  {
    assert t.stack[|s.stack|] == id;
    VisitedRootAt(g, s, t, gray, id, low);
    assert Closed(g);
    hide Inv, Witness, RootAt, Visited, LowBound, Closed;
    RootKeepsInv(g, t, gray, |s.stack|, u);
    RootExtends(s, t, u, id, low);
    EmptyLowBound(g, u, low);
    hide Popped;
  }

  lemma EmptyLowBound(g: Graph, u: State, low: nat)
    ensures LowBound(g, u, |u.stack|, |u.stack|, low)
  {
  }

  lemma RootExtends(s: State, t: State, u: State, id: Id, low: nat)
    requires Popped(t, |s.stack|, u) && s.stack + [id] <= t.stack && s.nodes <= t.nodes && s.output <= t.output
    requires forall v :: v in s.index ==> v in t.index && t.index[v] == s.index[v]
    requires id in t.index && t.index[id] == |s.nodes| && |s.nodes| < |t.nodes| && low == t.nodes[|s.nodes|].lowlink
    ensures Extends(s, u) && u.stack == s.stack && u.index == t.index
    ensures |s.nodes| < |u.nodes| && low == u.nodes[|s.nodes|].lowlink
  {
    assert t.stack[..|s.stack|] == s.stack && t.stack[|s.stack|] == id;
    PoppedKeepsNodes(s, t, u);
  }

  lemma VisitedRootAt(g: Graph, s: State, t: State, gray: set<Id>, id: Id, low: nat)
    requires id in g && Visiting(g, s, t, gray, id, |g[id]|, low) && low == t.index[id]
    requires forall x :: x in gray ==> x in s.stack
    ensures RootAt(g, t, gray, |s.stack|)
  {
    assert t.stack[..|s.stack|] == s.stack && t.stack[|s.stack|] == id;
    VisitLowBound(g, s, t, gray, id, low);
    AllVisited(g, s, t, id, low);
    hide Witness, LowBound, Visited, Numbered, Split, Colored, StackReach, BackToGray, Sorted;
  }

  lemma AllVisited(g: Graph, s: State, t: State, id: Id, low: nat)
    requires id in g && Visited(g, s, t, id, |g[id]|, low)
    ensures forall y :: Edge(g, id, y) ==> y in t.index
  {
  }

  // Popping touches only the nodes numbered since the call began.
  lemma PoppedKeepsNodes(s: State, t: State, u: State)
    requires |s.stack| < |t.stack| && t.stack[|s.stack|] in t.index && t.index[t.stack[|s.stack|]] == |s.nodes|
    requires s.nodes <= t.nodes && Popped(t, |s.stack|, u)
    ensures s.nodes <= u.nodes
  {
  }

  // What the loop needs to know about its next successor.
  lemma NextSuccessor(g: Graph, s: State, t: State, gray: set<Id>, id: Id, k: nat, low: nat)
    requires id in g && k < |g[id]| && Visiting(g, s, t, gray, id, k, low)
    requires forall x :: x in gray ==> Reach(g, x, id)
    ensures g[id][k] in g
    ensures g[id][k] in t.index ==> t.index[g[id][k]] < |t.nodes| && (t.nodes[t.index[g[id][k]]].stacked <==> g[id][k] in t.stack)
    ensures g[id][k] !in t.index ==> g[id][k] !in s.stack
    ensures forall x :: x in gray + {id} ==> Reach(g, x, g[id][k])
  {
    var v := g[id][k];
    if v in s.stack { PrefixHas(s.stack + [id], t.stack, v); }
    forall x | x in gray + {id} ensures Reach(g, x, v) {
      ReachEdge(g, id, v);
      if x != id { ReachTrans(g, x, id, v); }
    }
  }

  // The nodes while the stack is popped from the top down to height i.
  ghost predicate Unstacked(s: State, n: nat, i: nat, nodes: seq<Node>) {
    && n < |s.stack| && i <= |s.stack| && |nodes| == |s.nodes|
    && (forall k :: 0 <= k < |nodes| ==> nodes[k].lowlink == s.nodes[k].lowlink)
    && (forall k :: 0 <= k < |nodes| && s.stack[n] in s.index && k < s.index[s.stack[n]] ==> nodes[k] == s.nodes[k])
    && (forall v :: v in s.index && s.index[v] < |nodes| ==>
          nodes[s.index[v]].stacked == (s.nodes[s.index[v]].stacked && v !in s.stack[i..]))
  }

  lemma UnstackStep(g: Graph, s: State, n: nat, i: nat, nodes: seq<Node>)
    requires Numbered(g, s) && n <= i < |s.stack| && Unstacked(s, n, i + 1, nodes)
    ensures s.stack[i] in s.index && s.index[s.stack[i]] < |nodes|
    ensures var at := s.index[s.stack[i]]; Unstacked(s, n, i, nodes[at := nodes[at].(stacked := false)])
    ensures i > n ==> s.index[s.stack[n]] < s.index[s.stack[i]]
  {
    assert s.stack[i..] == [s.stack[i]] + s.stack[i + 1..];
  }

  class Data {
    const successors: Graph
    var nodes: seq<Node>
    var stack: seq<Id>
    var index: map<Id, nat>
    var output: seq<seq<Id>>

    constructor (successors: Graph)
      ensures this.successors == successors && Snapshot() == State([], [], map[], [])
    {
      this.successors := successors;
      nodes, stack, index, output := [], [], map[], [];
    }

    ghost function Snapshot(): State
      reads this
    {
      State(nodes, stack, index, output)
    }

    method LowerTo(i: nat, low: nat)
      requires i < |nodes|
      modifies this`nodes
      ensures Snapshot() == WithLow(old(Snapshot()), i, if low < old(nodes[i].lowlink) then low else old(nodes[i].lowlink))
    {
      assert nodes == nodes[i := nodes[i]];
      if low < nodes[i].lowlink {
        nodes := nodes[i := nodes[i].(lowlink := low)];
      }
    }

    // The pop loop: everything above and including the root becomes one group.
    method PopComponent(root: nat, ghost n: nat)
      requires Numbered(successors, Snapshot()) && n < |stack| && index[stack[n]] == root
      modifies this
      ensures Popped(old(Snapshot()), n, Snapshot())
    {
      hide Numbered;
      ghost var s := Snapshot();
      var scc: seq<Id> := [];
      var i := |stack| - 1;
      while true
        invariant n <= i < |stack| && stack == s.stack && index == s.index && output == s.output
        invariant scc == Reversed(s.stack[i + 1..])
        invariant Unstacked(s, n, i + 1, nodes)
        decreases i
      {
        UnstackStep(successors, s, n, i, nodes);
        var stackid := stack[i];
        var stackindex := index[stackid];
        nodes := nodes[stackindex := nodes[stackindex].(stacked := false)];
        assert s.stack[i..] == [stackid] + s.stack[i + 1..];
        scc := scc + [stackid];
        if stackindex == root {
          break;
        }
        i := i - 1;
      }
      stack := stack[..i];
      output := output + [scc];
    }

    method StrongConnect(id: Id, ghost gray: set<Id>) returns (low: nat)
      requires Inv(successors, Snapshot(), gray) && id in successors && id !in index
      requires forall x :: x in gray ==> Reach(successors, x, id)
      modifies this
      ensures Connected(successors, old(Snapshot()), Snapshot(), gray, id, low)
      decreases successors.Keys - index.Keys
    {
      hide Inv, Witness, LowBound, Visited, Reach, Closed, Numbered;
      ghost var g := successors;
      ghost var s := Snapshot();
      StackIndexed(g, s, gray);
      var number := |nodes|;
      index := index[id := number];
      stack := stack + [id];
      nodes := nodes + [Node(number, true)];
      VisitStart(g, s, gray, id);

      var succs := successors[id];
      for k := 0 to |succs|
        invariant number == |s.nodes| < |nodes|
        invariant Visiting(g, s, Snapshot(), gray, id, k, nodes[number].lowlink)
      {
        var succid := succs[k];
        ghost var t := Snapshot();
        NextSuccessor(g, s, t, gray, id, k, nodes[number].lowlink);
        if succid !in index {
          assert id in index && id !in s.index;
          var succlow := StrongConnect(succid, gray + {id});
          VisitChild(g, s, t, Snapshot(), gray, id, k, t.nodes[number].lowlink, succlow);
          LowerTo(number, succlow);
        } else {
          assert WithLow(t, number, t.nodes[number].lowlink).nodes == t.nodes;
          if nodes[index[succid]].stacked {
            LowerTo(number, index[succid]);
          }
          VisitSeen(g, s, t, gray, id, k, t.nodes[number].lowlink, nodes[number].lowlink);
        }
      }

      low := nodes[number].lowlink;
      ghost var t := Snapshot();
      if low == number {
        assert stack[|s.stack|] == id;
        StackIndexed(g, t, gray + {id});
        PopComponent(number, |s.stack|);
        VisitEndRoot(g, s, t, Snapshot(), gray, id, low);
      } else {
        VisitEndNonRoot(g, s, t, gray, id, low);
      }
    }
  }

  // ---------- the whole sort ----------

  // The node list never outgrows the capacity it was made with, one slot a key,
  // so the pointer a call keeps to its own node stays good.
  lemma NodesFitCapacity(g: Graph, s: State, gray: set<Id>)
    requires Inv(g, s, gray)
    ensures |s.nodes| <= |g|
  {
    hide Sorted, Split, Colored, StackReach, BackToGray;
    assert |g.Keys| == |s.index.Keys| + |g.Keys - s.index.Keys|;
  }

  // Sorted without repetition.
  ghost predicate Ascending(ids: seq<Id>) {
    forall i, j :: 0 <= i < j < |ids| ==> ids[i] < ids[j]
  }

  function Insert(id: Id, ids: seq<Id>): (r: seq<Id>)
    requires Ascending(ids) && id !in ids
    ensures Ascending(r) && |r| == |ids| + 1
    ensures forall v :: v in r <==> v == id || v in ids
  {
    if ids == [] || id < ids[0] then
      [id] + ids
    else
      assert ids == [ids[0]] + ids[1..];
      var r := Insert(id, ids[1..]);
      assert forall k :: 0 <= k < |r| ==> ids[0] < r[k] by {
        assert forall k :: 0 <= k < |r| ==> r[k] in r;
      }
      [ids[0]] + r
  }

  // sort.Sort on the ids of one component, which are distinct.
  function SortIds(ids: seq<Id>): (r: seq<Id>)
    requires NoDup(ids)
    ensures Ascending(r) && |r| == |ids|
    ensures forall v :: v in r <==> v in ids
  {
    if ids == [] then [] else Insert(ids[0], SortIds(ids[1..]))
  }

  // Reordering inside a group changes nothing the sort promises.
  lemma SortedAfterReorder(g: Graph, output: seq<seq<Id>>, i: nat)
    requires Sorted(g, output) && i < |output|
    ensures Sorted(g, output[i := SortIds(output[i])])
  {
    var out := output[i := SortIds(output[i])];
    assert forall k, v :: 0 <= k < |out| ==> (v in out[k] <==> v in output[k]);
    hide Reach;
    forall k, u, v | 0 <= k < |out| && u in out[k] && Edge(g, u, v) ensures exists j :: 0 <= j <= k && v in out[j] {
      var j :| 0 <= j <= k && v in output[j];
      assert v in out[j];
    }
  }

  ghost predicate Covers(output: seq<seq<Id>>, keys: set<Id>) {
    forall v :: v in keys <==> InOutput(output, v)
  }

  // The groups partition the keys into the classes of mutual reachability, and
  // every edge between two groups leads to an earlier one.
  method TarjanSort(successors: Graph) returns (sorted: seq<seq<Id>>)
    requires Closed(successors)
    ensures Covers(sorted, successors.Keys)
    ensures GroupsDistinct(sorted)
    ensures GroupsAreClasses(successors, sorted)
    ensures EdgesGoBack(successors, sorted)
    ensures forall i :: 0 <= i < |sorted| ==> Ascending(sorted[i])
  {
    hide Inv, Sorted, Reach, InOutput;
    sorted := Components(successors);
    var n := |sorted|;
    for k := 0 to n
      invariant |sorted| == n && Sorted(successors, sorted) && Covers(sorted, successors.Keys)
      invariant forall i :: 0 <= i < k ==> Ascending(sorted[i])
    {
      assert NoDup(sorted[k]) by { SortedMeans(successors, sorted); }
      SortedAfterReorder(successors, sorted, k);
      ReorderCovers(sorted, k, successors.Keys);
      if |sorted[k]| > 1 {
        sorted := sorted[k := SortIds(sorted[k])];
      }
    }
    SortedMeans(successors, sorted);
  }

  // The outer loop: it starts a search at every key not yet numbered.
  method Components(successors: Graph) returns (output: seq<seq<Id>>)
    requires Closed(successors)
    ensures Sorted(successors, output) && Covers(output, successors.Keys)
  {
    var data := new Data(successors);
    EmptyInv(successors);
    hide Inv, Reach;
    var rest := successors.Keys;
    while rest != {}
      invariant data.successors == successors && rest <= successors.Keys
      invariant Inv(successors, data.Snapshot(), {})
      invariant forall v :: v in successors && v !in rest ==> v in data.index
      decreases |rest|
    {
      var id :| id in rest;
      rest := rest - {id};
      if id !in data.index {
        var _ := data.StrongConnect(id, {});
      }
    }
    output := data.output;
    AllOutput(successors, data.Snapshot());
  }

  lemma EmptyInv(g: Graph)
    requires Closed(g)
    ensures Inv(g, State([], [], map[], []), {})
  {
  }

  lemma AllOutput(g: Graph, s: State)
    requires Inv(g, s, {}) && s.index.Keys == g.Keys
    ensures Sorted(g, s.output) && Covers(s.output, g.Keys)
  {
    NoGrayNoStack(g, s);
    hide Sorted, Reach;
  }

  lemma SortedMeans(g: Graph, output: seq<seq<Id>>)
    requires Sorted(g, output)
    ensures GroupsAreClasses(g, output) && GroupsDistinct(output) && EdgesGoBack(g, output)
  {
  }

  lemma NoGrayNoStack(g: Graph, s: State)
    requires Inv(g, s, {})
    ensures s.stack == []
  {
    hide Sorted, Reach;
    assert !HasGray(g, s, {}, if s.stack == [] then 0 else s.stack[0]);
  }

  lemma ReorderCovers(output: seq<seq<Id>>, i: nat, keys: set<Id>)
    requires Covers(output, keys) && i < |output| && NoDup(output[i])
    ensures Covers(output[i := SortIds(output[i])], keys)
  {
    var out := output[i := SortIds(output[i])];
    assert forall k, v :: 0 <= k < |out| ==> (v in out[k] <==> v in output[k]);
    forall v ensures InOutput(out, v) <==> InOutput(output, v) {
      if InOutput(output, v) {
        var k :| 0 <= k < |output| && v in output[k];
        assert v in out[k];
      }
    }
  }

  // Walking the groups from last to first, as the flusher does, meets a
  // transaction before every one that depends on it, unless the two wait for
  // each other and share a group.
  lemma PredecessorsFirst(g: Graph, sorted: seq<seq<Id>>, i: nat, j: nat, u: Id, v: Id)
    requires Sorted(g, sorted) && i < |sorted| && j < |sorted| && u in sorted[i] && v in sorted[j]
    requires Reach(g, u, v)
    ensures j <= i && (j == i <==> Reach(g, v, u))
  {
    var earlier := set k, x | 0 <= k <= i && x in sorted[k] :: x;
    forall x, y | x in earlier && Edge(g, x, y) ensures y in earlier {
      var k :| 0 <= k <= i && x in sorted[k];
      var l :| 0 <= l <= k && y in sorted[l];
    }
    ReachStaysIn(g, earlier, u, v);
    var k :| 0 <= k <= i && v in sorted[k];
    assert k == j;
    assert v in sorted[i] <==> Mutual(g, u, v);
  }
}
