/** What several modules share. */
module Prelude {
  datatype Option<T> = None | Some(value: T)

  const UINT32 := 0x1_0000_0000

  /** A 32-bit sequence number. */
  type Seq32 = n: nat | n < UINT32

  /** uint32 addition of one. */
  function NextSeq(last: Seq32): Seq32 { (last + 1) % UINT32 }

  lemma {:induction false} SubsetIsSmaller<T>(a: set<T>, b: set<T>)
    requires a <= b
    ensures |a| <= |b|
  {
    if a != {} {
      var x :| x in a;
      SubsetIsSmaller(a - {x}, b - {x});
    }
  }
}
