/** The order of texts by their characters. */
module TextOrder {
  /** Texts compare character by character; a proper prefix comes first. */
  predicate TextLe(a: string, b: string)
    decreases |a|
  {
    a == [] || (b != [] && (a[0] < b[0] || (a[0] == b[0] && TextLe(a[1..], b[1..]))))
  }

  lemma {:induction false} TextLeTotal(a: string, b: string)
    ensures TextLe(a, b) || TextLe(b, a)
    ensures TextLe(a, b) && TextLe(b, a) ==> a == b
    decreases |a|
  {
    if a != [] && b != [] {
      TextLeTotal(a[1..], b[1..]);
      assert a == [a[0]] + a[1..] && b == [b[0]] + b[1..];
    }
  }

  lemma {:induction false} TextLeTransitive(a: string, b: string, c: string)
    requires TextLe(a, b) && TextLe(b, c)
    ensures TextLe(a, c)
    decreases |a|
  {
    if a != [] && a[0] == b[0] && b[0] == c[0] {
      TextLeTransitive(a[1..], b[1..], c[1..]);
    }
  }

  /** The first `k` characters agree. */
  predicate AgreeTo(a: string, b: string, k: nat) {
    k <= |a| && k <= |b| && forall i :: 0 <= i < k ==> a[i] == b[i]
  }

  /** The first text has the smaller character where the two first differ. */
  predicate LessAt(a: string, b: string, k: nat) {
    AgreeTo(a, b, k) && k < |a| && k < |b| && a[k] < b[k]
  }

  lemma TailsAgree(a: string, b: string, k: nat)
    requires a != [] && b != [] && a[0] == b[0]
    ensures AgreeTo(a, b, k + 1) <==> AgreeTo(a[1..], b[1..], k)
    ensures LessAt(a, b, k + 1) <==> LessAt(a[1..], b[1..], k)
  {
    if AgreeTo(a[1..], b[1..], k) {
      forall i | 0 <= i < k + 1
        ensures a[i] == b[i]
      {
        assert i > 0 ==> a[1..][i - 1] == b[1..][i - 1];
      }
    }
  }

  /** A text comes first exactly if it begins the other, or has the smaller character where they
    first differ. */
  lemma {:induction false} TextLeMeans(a: string, b: string)
    ensures TextLe(a, b) <==> AgreeTo(a, b, |a|) || exists k: nat :: LessAt(a, b, k)
    decreases |a|
  {
    if a != [] && b != [] {
      if a[0] == b[0] {
        TextLeMeans(a[1..], b[1..]);
        TailsAgree(a, b, |a| - 1);
        forall k: nat { TailsAgree(a, b, k); }
        if k: nat :| LessAt(a, b, k) {
          TailsAgree(a, b, k - 1);
          assert LessAt(a[1..], b[1..], k - 1);
        }
      } else {
        assert LessAt(a, b, 0) <==> a[0] < b[0];
      }
    }
  }
}
