/** Frame and call ids: 32-bit counters that wrap from the maximum to one. */
module Ids {
  import opened Bytes

  const ID_CYCLE: nat := TWO_32 - 1

  /** `increment_frame_id` and the id allocation of `call`. */
  function NextId(id: nat): (r: nat)
    requires id < TWO_32
    ensures 1 <= r < TWO_32
  {
    if id == TWO_32 - 1 then 1 else id + 1
  }

  /** The id of the k-th allocation of a counter that starts at zero. */
  function IdOf(k: nat): (r: nat)
    ensures r < TWO_32
  {
    if k == 0 then 0 else NextId(IdOf(k - 1))
  }

  lemma {:induction false} IdClosedForm(k: nat)
    requires k > 0
    ensures IdOf(k) == (k - 1) % ID_CYCLE + 1
  {
    if k > 1 {
      IdClosedForm(k - 1);
      NextMod(k - 2);
    }
  }

  lemma NextMod(n: nat)
    ensures (n + 1) % ID_CYCLE == if n % ID_CYCLE == ID_CYCLE - 1 then 0 else n % ID_CYCLE + 1
  {
    var m, q := n % ID_CYCLE, n / ID_CYCLE;
    assert n == ID_CYCLE * q + m;
    if m == ID_CYCLE - 1 {
      ModUnique(n + 1, q + 1, 0);
    } else {
      ModUnique(n + 1, q, m + 1);
    }
  }

  /** Two allocations share an id exactly when they are a whole number of cycles apart. */
  lemma IdCollision(i: nat, j: nat)
    requires 0 < i <= j
    ensures IdOf(i) != 0
    ensures IdOf(i) == IdOf(j) <==> (j - i) % ID_CYCLE == 0
  {
    IdClosedForm(i);
    IdClosedForm(j);
    var qi, qj := (i - 1) / ID_CYCLE, (j - 1) / ID_CYCLE;
    var mi, mj := (i - 1) % ID_CYCLE, (j - 1) % ID_CYCLE;
    assert i - 1 == ID_CYCLE * qi + mi && j - 1 == ID_CYCLE * qj + mj;
    assert j - i == ID_CYCLE * (qj - qi) + (mj - mi);
    if mj >= mi {
      ModUnique(j - i, qj - qi, mj - mi);
    } else {
      assert j - i == ID_CYCLE * (qj - qi - 1) + (mj - mi + ID_CYCLE);
      ModUnique(j - i, qj - qi - 1, mj - mi + ID_CYCLE);
    }
  }

  lemma ModUnique(n: nat, q: int, r: nat)
    requires r < ID_CYCLE && n == ID_CYCLE * q + r
    ensures n % ID_CYCLE == r
  {}

  /** Within any window shorter than a cycle an id names one allocation. */
  lemma IdInjectiveInWindow(i: nat, j: nat)
    requires 0 < i && 0 < j
    requires i < j + ID_CYCLE && j < i + ID_CYCLE
    requires IdOf(i) == IdOf(j)
    ensures i == j
  {
    if i <= j { IdCollision(i, j); } else { IdCollision(j, i); }
  }
}
