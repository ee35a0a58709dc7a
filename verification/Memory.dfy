/** Shared memory as total functions from addresses to cells, and the one way it changes: a store to one address. */
module Memory {
  /** A thread; any number of them run. */
  type Tid = nat

  /** The memory f after storing v at address i. */
  function Put<T>(f: nat -> T, i: nat, v: T): (g: nat -> T)
    ensures g(i) == v
    ensures forall x: nat {:trigger g(x)} :: x != i ==> g(x) == f(x)
  {
    (x: nat) => if x == i then v else f(x)
  }
}
