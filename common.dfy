/**
 * Values shared by every chain builder of the token bridge's outbound
 * transfer code: optional values and error results, account addresses,
 * byte strings, chain ids, and a counting function used to state that a
 * transaction holds exactly one bridge-transfer operation.
 */
module Common {

  /** A value that may be absent (`null` / `undefined` in the source). */
  datatype Option<+T> = None | Some(value: T)

  /** A built transaction, or the reason no transaction was built. */
  datatype Result<+T> = Ok(value: T) | Err(message: string)

  /** Account / contract / public-key addresses, kept opaque. */
  type Address = string

  /** Raw byte strings: recipient addresses, payloads. */
  type Bytes = seq<bv8>

  /** Wormhole chain ids (already coalesced from chain names). */
  type ChainId = nat

  /** Wormhole's chain id for Solana. */
  const CHAIN_ID_SOLANA: ChainId := 1

  /** Number of elements of `s` that satisfy `p`. */
  function CountWhere<T>(s: seq<T>, p: T -> bool): (n: nat)
    ensures n <= |s|
    ensures n == 0 <==> forall i :: 0 <= i < |s| ==> !p(s[i])
    ensures n == |s| <==> forall i :: 0 <= i < |s| ==> p(s[i])
  {
    if s == [] then 0
    else
      var rest := CountWhere(s[1..], p);
      assert forall i :: 1 <= i < |s| ==> s[i] == s[1..][i - 1];
      (if p(s[0]) then 1 else 0) + rest
  }

  /** Counting distributes over concatenation. */
  lemma {:induction false} CountWhereConcat<T>(a: seq<T>, b: seq<T>, p: T -> bool)
    ensures CountWhere(a + b, p) == CountWhere(a, p) + CountWhere(b, p)
  {
    if a == [] {
      assert a + b == b;
    } else {
      assert (a + b)[1..] == a[1..] + b;
      CountWhereConcat(a[1..], b, p);
    }
  }

  /**
   * Exactly one element satisfies `p` if and only if there is a position
   * holding such an element and every other position holds one that does not.
   */
  lemma {:induction false} CountWhereOne<T>(s: seq<T>, p: T -> bool, k: nat)
    requires k < |s| && p(s[k])
    ensures CountWhere(s, p) == 1 <==> forall i :: 0 <= i < |s| && i != k ==> !p(s[i])
  {
    var pre, mid, post := s[..k], [s[k]], s[k + 1..];
    assert s == pre + mid + post;
    CountWhereConcat(pre + mid, post, p);
    CountWhereConcat(pre, mid, p);
    assert CountWhere(mid, p) == 1;
    assert forall i :: 0 <= i < k ==> s[i] == pre[i];
    assert forall i :: k < i < |s| ==> s[i] == post[i - k - 1];
    assert forall j :: 0 <= j < |post| ==> post[j] == s[j + k + 1];
  }
}
