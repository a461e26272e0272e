/**
  Vertex deduplication as done by `loadModel` in main.cpp and by
  `AssetManager::LoadObjFile`: every vertex read is looked up in a map from
  vertex to its position; an unseen vertex is appended to the vertex list, and
  the index buffer receives the vertex's position either way.

  Vertices are opaque values compared with `==` (the source hashes and compares
  position, colour and texture coordinate).
 */
module VertexDedup {
  import opened Vk

  /** A vertex list together with the index buffer that refers into it. */
  datatype Buffers<V> = Buffers(vertices: seq<V>, indices: seq<nat>)

  predicate Distinct<V(==)>(s: seq<V>) {
    forall i, j :: 0 <= i < j < |s| ==> s[i] != s[j]
  }

  /** The effect of reading one more vertex. */
  function Step<V(==)>(b: Buffers<V>, v: V): Buffers<V> {
    if v in b.vertices then Buffers(b.vertices, b.indices + [IndexOf(b.vertices, v)])
    else Buffers(b.vertices + [v], b.indices + [|b.vertices|])
  }

  /** The buffers after reading `stream` in order, starting from empty ones. */
  function Dedup<V(==)>(stream: seq<V>): Buffers<V> {
    if stream == [] then Buffers([], [])
    else Step(Dedup(stream[..|stream| - 1]), stream[|stream| - 1])
  }

  /** The buffers describe `stream` exactly: one index per vertex read, each
      index refers to an equal vertex, the vertex list has no duplicates and
      holds exactly the vertices that were read. */
  ghost predicate Describes<V(!new)>(b: Buffers<V>, stream: seq<V>) {
    && |b.indices| == |stream|
    && Distinct(b.vertices)
    && (forall k :: 0 <= k < |stream| ==> b.indices[k] < |b.vertices| && b.vertices[b.indices[k]] == stream[k])
    && (forall v :: v in b.vertices <==> v in stream)
  }

  lemma {:induction false} DedupDescribes<V(!new)>(stream: seq<V>)
    ensures Describes(Dedup(stream), stream)
  {
    if stream != [] {
      var front, v := stream[..|stream| - 1], stream[|stream| - 1];
      assert stream == front + [v];
      DedupDescribes(front);
      var b := Dedup(front);
      var b' := Dedup(stream);
      assert b' == Step(b, v);
      forall k | 0 <= k < |stream|
        ensures b'.indices[k] < |b'.vertices| && b'.vertices[b'.indices[k]] == stream[k]
      {
        if k < |front| {
          assert b'.indices[k] == b.indices[k];
          assert stream[k] == front[k];
        }
      }
    }
  }

  /** Appending to a sequence does not move the first occurrence of a value
      that was already present. */
  lemma {:induction false} IndexOfAppend<V(!new)>(s: seq<V>, t: seq<V>, v: V)
    requires v in s
    ensures IndexOf(s + t, v) == IndexOf(s, v)
  {
    if s[0] != v {
      assert (s + t)[1..] == s[1..] + t;
      IndexOfAppend(s[1..], t, v);
    }
  }

  /** The vertex list is in first-occurrence order of the vertices read. */
  lemma {:induction false} DedupFirstOccurrenceOrder<V(!new)>(stream: seq<V>)
    ensures forall i, j :: 0 <= i < j < |Dedup(stream).vertices| ==>
      IndexOf(stream, Dedup(stream).vertices[i]) < IndexOf(stream, Dedup(stream).vertices[j]) < |stream|
  {
    DedupDescribes(stream);
    if stream != [] {
      var front, v := stream[..|stream| - 1], stream[|stream| - 1];
      assert stream == front + [v];
      DedupFirstOccurrenceOrder(front);
      DedupDescribes(front);
      var vs, vs' := Dedup(front).vertices, Dedup(stream).vertices;
      forall u | u in vs
        ensures IndexOf(stream, u) == IndexOf(front, u)
      {
        IndexOfAppend(front, [v], u);
      }
      forall i, j | 0 <= i < j < |vs'|
        ensures IndexOf(stream, vs'[i]) < IndexOf(stream, vs'[j]) < |stream|
      {
        assert vs'[i] == vs[i] && vs[i] in vs;
        if j == |vs| {
          assert vs'[j] == v && v !in front;
          assert stream[..|front|] == front;
          IndexOfIs(stream, v, |front|);
        } else {
          assert vs'[j] == vs[j] && vs[j] in vs;
        }
      }
    }
  }

  /** The map the source keeps from vertex to its position in the vertex list. */
  ghost predicate LookupMatches<V(!new)>(lookup: map<V, nat>, vertices: seq<V>) {
    && (forall v :: v in lookup <==> v in vertices)
    && (forall v :: v in lookup ==> lookup[v] < |vertices| && vertices[lookup[v]] == v)
  }

  /** Reads one vertex: looks it up, appends it when unseen, and pushes its
      position onto the index buffer. */
  method AddVertex<V(==,!new)>(lookup: map<V, nat>, b: Buffers<V>, v: V) returns (lookup': map<V, nat>, b': Buffers<V>)
    requires Distinct(b.vertices) && LookupMatches(lookup, b.vertices)
    ensures b' == Step(b, v)
    ensures Distinct(b'.vertices) && LookupMatches(lookup', b'.vertices)
  {
    if v !in lookup {
      lookup' := lookup[v := |b.vertices|];
      b' := Buffers(b.vertices + [v], b.indices + [|b.vertices|]);
    } else {
      lookup' := lookup;
      var k := lookup[v];
      assert k == IndexOf(b.vertices, v) by {
        var f := IndexOf(b.vertices, v);
        assert b.vertices[f] == v == b.vertices[k];
      }
      b' := Buffers(b.vertices, b.indices + [k]);
    }
  }
}
