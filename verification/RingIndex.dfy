/** Positions in a ring of slots. */
module RingIndex {

  /** The k-th slot after the given one; WrapIsModulo shows that this is the remainder the sources compute. */
  function Wrap(index: nat, k: nat, size: nat): (r: nat)
    requires index < size && k <= size
    ensures r < size
  {
    if index + k < size then index + k else index + k - size
  }

  lemma ModuloOnce(a: nat, n: nat)
    requires 0 < n && a < 2 * n
    ensures a % n == if a < n then a else a - n
  {
    if a >= n { assert a == n * 1 + (a - n) && a / n == 1; }
  }

  lemma WrapIsModulo(index: nat, k: nat, size: nat)
    requires index < size && k <= size
    ensures Wrap(index, k, size) == (index + k) % size
  {
    ModuloOnce(index + k, size);
  }

  lemma WrapStep(index: nat, k: nat, size: nat)
    requires index < size && k < size
    ensures Wrap(Wrap(index, 1, size), k, size) == Wrap(index, k + 1, size)
  {
  }

  lemma WrapInjective(index: nat, j: nat, k: nat, size: nat)
    requires index < size && j < size && k < size && j != k
    ensures Wrap(index, j, size) != Wrap(index, k, size)
  {
  }
}
