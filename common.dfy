/**
 * Vocabulary shared by the C++ camera driver and the Python thermal-camera script:
 * optional values, unsigned 64-bit timestamps, message headers, and the
 * `strfmt` helper that substitutes a camera index into a name template; plus the
 * sequence and division facts the other modules' proofs share.
 */
module Common {

  datatype Option<T> = None | Some(value: T)

  /** A `size_t` / `uint64_t` timestamp in nanoseconds. */
  type U64 = x: int | 0 <= x < 0x1_0000_0000_0000_0000

  /**
   * A name that ends up in a topic or in a header's frame_id: either literal text,
   * or the result of substituting an index into a template with `strfmt`.
   */
  datatype Label = Literal(text: string) | Formatted(template: string, index: nat)

  /**
   * `strfmt(template, idx)`. Its definition is not part of this model; all the driver
   * relies on is that the result is determined by, and determines, the template and
   * the index, so it is represented by the pair itself.
   */
  function StrFmt(template: string, index: nat): (r: Label)
    ensures r.Formatted? && r.template == template && r.index == index
  {
    Formatted(template, index)
  }

  /** The fields of a ROS `std_msgs/Header` the driver sets: the stamp and the frame_id. */
  datatype Header = Header(stamp: U64, frameId: Label)

  /** The last element of a non-empty sequence, and everything before it. */
  function Last<T>(s: seq<T>): T
    requires s != []
  {
    s[|s| - 1]
  }

  function AllButLast<T>(s: seq<T>): seq<T>
    requires s != []
  {
    s[..|s| - 1]
  }

  /** Sequence concatenation is associative. */
  lemma Assoc<T>(a: seq<T>, b: seq<T>, c: seq<T>)
    ensures a + b + c == a + (b + c)
  {
  }

  /** A prefix of a stays a prefix of a longer a + b. */
  lemma PrefixAppend<T>(p: seq<T>, a: seq<T>, b: seq<T>)
    requires p <= a
    ensures p <= a + b
  {
    assert (a + b)[..|a|] == a;
  }

  /** An element of a prefix is an element of the whole. */
  lemma InPrefix<T>(x: T, p: seq<T>, q: seq<T>)
    requires x in p && p <= q
    ensures x in q
  {
    var k :| 0 <= k < |p| && p[k] == x;
    assert q[k] == x;
  }

  /** Euclidean division is characterised by its quotient and remainder. */
  lemma DivModUnique(a: int, k: int, q: int, r: int)
    requires 0 < k && 0 <= r < k && a == q * k + r
    ensures a / k == q && a % k == r
  {
    var d := q - a / k;
    assert d * k == a % k - r by {
      assert a == (a / k) * k + a % k;
      assert q * k - (a / k) * k == d * k;
    }
    if d >= 1 {
      MulAtLeast(d, k);
    } else if d <= -1 {
      MulAtLeast(-d, k);
    }
  }

  lemma MulAtLeast(d: int, k: int)
    requires 1 <= d && 0 < k
    ensures d * k >= k
  {
    assert d * k == (d - 1) * k + k;
    assert (d - 1) * k >= 0;
  }
}
