/** kservice.c: rt_memcpy on the bytes of a heap. */
module Memory {
  function Smaller(a: int, b: int): int {
    if a < b then a else b
  }

  /** The first m bytes at ptr are now at r and no other byte changed. */
  ghost predicate Carried(was: seq<bv8>, now: seq<bv8>, r: int, ptr: int, m: int) {
    && |was| == |now| && 0 <= m && 0 <= ptr && 0 <= r && ptr + m <= |was| && r + m <= |was|
    && now == was[..r] + was[ptr..ptr + m] + was[r + m..]
  }

  /** rt_memcpy between two stretches of memory that do not overlap. */
  method Memcpy(bytes: array<bv8>, dst: int, src: int, count: int)
    requires 0 <= count && 0 <= src && src + count <= bytes.Length && 0 <= dst && dst + count <= bytes.Length
    requires src + count <= dst || dst + count <= src
    modifies bytes
    ensures Carried(old(bytes[..]), bytes[..], dst, src, count)
  {
    ghost var was := bytes[..];
    for k := 0 to count
      invariant bytes[dst..dst + k] == was[src..src + k]
      invariant bytes[..dst] == was[..dst] && bytes[dst + k..] == was[dst + k..]
    {
      assert bytes[src + k] == was[src + k] by {
        if src + count <= dst {
          assert bytes[..dst][src + k] == was[..dst][src + k];
        } else {
          assert bytes[dst + k..][src + k - dst - k] == was[dst + k..][src + k - dst - k];
        }
      }
      bytes[dst + k] := bytes[src + k];
      assert bytes[dst..dst + k + 1] == bytes[dst..dst + k] + [was[src + k]];
      assert was[src..src + k + 1] == was[src..src + k] + [was[src + k]];
      assert forall j :: dst + k + 1 <= j < bytes.Length ==> bytes[j] == was[dst + k..][j - dst - k];
    }
    assert bytes[..] == bytes[..dst] + bytes[dst..dst + count] + bytes[dst + count..];
  }
}
