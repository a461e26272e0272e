/**
  Plumbing shared by the models of the engine's source files: the way an
  operation reports a thrown exception, raw Vulkan handles and result codes,
  32-bit unsigned arithmetic, and the descriptor-pool creation record that two
  source files fill in.
 */
module Vk {

  /** An operation that either returns normally or throws with a message. */
  datatype Outcome = Pass | Fail(error: string)

  /** An operation that either returns a value or throws with a message. */
  datatype Result<T> = Ok(value: T) | Err(error: string)

  datatype Option<T> = None | Some(value: T)

  /** A Vulkan handle; 0 stands for VK_NULL_HANDLE. */
  type Handle = nat

  const NULL_HANDLE: Handle := 0

  /** A VkResult code as returned by the driver. */
  type VkResult = int

  const VK_SUCCESS: VkResult := 0

  const U32_MODULUS: nat := 0x1_0000_0000

  /** Conversion to `uint32_t`, as a C++ cast or uint32 arithmetic does:
      the value modulo 2^32, so -1 becomes 0xFFFFFFFF. */
  function U32(x: int): (r: nat)
    ensures r < U32_MODULUS
    ensures 0 <= x < U32_MODULUS ==> r == x
    ensures x < 0 && 0 <= x + U32_MODULUS ==> r == x + U32_MODULUS
  {
    x % 0x1_0000_0000
  }

  /** A buffer and its device memory, as the buffer helpers fill them in. */
  datatype BufferResource = BufferResource(buffer: Handle, memory: Handle)

  const NO_BUFFER := BufferResource(NULL_HANDLE, NULL_HANDLE)

  /** The fields of a VkDescriptorPoolCreateInfo that the engine fills in. */
  datatype DescriptorPoolInfo = DescriptorPoolInfo(
    uniformBufferCount: nat,
    imageSamplerCount: nat,
    maxSets: nat,
    freeDescriptorSet: bool)

  /** First position of `v` in `s`, or `|s|` when `v` does not occur. */
  function IndexOf<V(==)>(s: seq<V>, v: V): (k: nat)
    ensures k <= |s|
    ensures k < |s| <==> v in s
    ensures k < |s| ==> s[k] == v
    ensures v !in s[..k]
  {
    if s == [] then 0
    else if s[0] == v then 0
    else
      var k := 1 + IndexOf(s[1..], v);
      assert s[..k] == [s[0]] + s[1..][..k - 1];
      k
  }

  /** A position holding `v` with no `v` before it is the first position of `v`. */
  lemma {:induction false} IndexOfIs<V>(s: seq<V>, v: V, i: nat)
    requires i < |s| && s[i] == v && v !in s[..i]
    ensures IndexOf(s, v) == i
  {
    if i > 0 {
      assert s[0] in s[..i];
      assert s[1..][..i - 1] == s[..i][1..];
      IndexOfIs(s[1..], v, i - 1);
    }
  }

  /** Concatenation regrouped; stated once so that callers need not prove it
      element by element. */
  lemma AppendAssoc<T>(a: seq<T>, b: seq<T>, c: seq<T>)
    ensures a + b + c == a + (b + c)
  {
  }

  lemma PrefixSnoc<T>(s: seq<T>, k: nat)
    requires k < |s|
    ensures s[..k + 1] == s[..k] + [s[k]]
  {
  }

  /** `f` applied to every element, in order. */
  function Map<A, B>(f: A -> B, s: seq<A>): seq<B> {
    if s == [] then [] else Map(f, s[..|s| - 1]) + [f(s[|s| - 1])]
  }

  lemma MapSnoc<A, B>(f: A -> B, s: seq<A>, x: A)
    ensures Map(f, s + [x]) == Map(f, s) + [f(x)]
  {
    assert (s + [x])[..|s|] == s;
  }

  /** The i-th element of the result is `f` of the i-th input. */
  lemma {:induction false} MapAt<A, B>(f: A -> B, s: seq<A>)
    ensures |Map(f, s)| == |s|
    ensures forall i :: 0 <= i < |s| ==> Map(f, s)[i] == f(s[i])
  {
    if s != [] {
      var front := s[..|s| - 1];
      MapAt(f, front);
      assert forall i :: 0 <= i < |front| ==> s[i] == front[i];
    }
  }
}
