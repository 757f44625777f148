/** The life of a command receipt over any run of puts and appends. */
module WorkbenchReceipts {
  import opened Text
  import opened Workbench
  import opened WorkbenchRuns

  // ---------------------------------------------------------------- histories

  /** The values a receipt takes while a list of receipts is put, one for each put to its key. */
  function Puts(receipts: Receipts, rs: seq<Receipt>, k: ReceiptKey): seq<Receipt>
    requires PutReceipts(receipts, rs).Ok?
    decreases rs
  {
    if rs == [] then []
    else
      var next := PutReceipt(receipts, rs[0]).value;
      (if KeyOfReceipt(rs[0]) == k then [next[k]] else []) + Puts(next, rs[1..], k)
  }

  function StepPuts(s: Store, op: Op, k: ReceiptKey): seq<Receipt> {
    match op
    case AppendOp(q) =>
      if Applies(s, q) then
        assert PutReceipts(s.receipts, q.receipts).Ok? by { AppliesFacts(s, q); }
        Puts(s.receipts, q.receipts, k)
      else []
    case EnsureOp(_) => []
    case FilesOp(_) => []
    case PutOp(r) =>
      if ValidReceipt(r) && PutReceipt(s.receipts, r).Ok? && KeyOfReceipt(r) == k then [PutReceipt(s.receipts, r).value[k]] else []
  }

  /** Every value that was stored under a key, in order. */
  function History(ops: seq<Op>, k: ReceiptKey): seq<Receipt> {
    if ops == [] then []
    else History(ops[..|ops| - 1], k) + StepPuts(Final(ops[..|ops| - 1]), ops[|ops| - 1], k)
  }

  predicate InRange(state: int) { RECEIVED <= state <= CANCELLED }

  /** The edges of the state machine, from received, accepted and running to what may come next. */
  const EDGES: set<(int, int)> := {(1, 2), (1, 5), (1, 6), (2, 3), (2, 4), (2, 5), (2, 7), (3, 4), (3, 5), (3, 7)}

  /** What one put may make of a stored receipt: the same one, other bytes while it is under way, or the next state. */
  predicate Edge(a: Receipt, b: Receipt) {
    && a.session == b.session && a.command == b.command && a.digest == b.digest
    && (a == b || (a.state == b.state && a.state in {1, 2, 3}) || (a.state, b.state) in EDGES)
  }

  ghost predicate IsRun(h: seq<Receipt>, k: ReceiptKey) {
    && (forall i :: 0 <= i < |h| ==> h[i].session == k.session && h[i].command == k.command && 1 <= h[i].state <= 7)
    && (forall i :: 0 < i < |h| ==> Edge(h[i - 1], h[i]))
  }

  ghost predicate EndsIn(h: seq<Receipt>, receipts: Receipts, k: ReceiptKey) {
    IsRun(h, k) && (k in receipts <==> h != []) && (h != [] ==> receipts[k] == h[|h| - 1])
  }

  lemma PutIsEdge(receipts: Receipts, r: Receipt, k: ReceiptKey, h: seq<Receipt>)
    requires EndsIn(h, receipts, k) && PutReceipt(receipts, r).Ok? && InRange(r.state)
    ensures var next := PutReceipt(receipts, r).value;
      EndsIn(h + if KeyOfReceipt(r) == k then [next[k]] else [], next, k)
  {
    var next := PutReceipt(receipts, r).value;
    if KeyOfReceipt(r) == k {
      if h != [] {
        assert Edge(receipts[k], next[k]);
      }
    } else {
      assert h + [] == h;
    }
  }

  lemma {:induction false} PutsAreEdges(receipts: Receipts, rs: seq<Receipt>, k: ReceiptKey, h: seq<Receipt>)
    requires EndsIn(h, receipts, k) && PutReceipts(receipts, rs).Ok? && forall i :: 0 <= i < |rs| ==> InRange(rs[i].state)
    ensures EndsIn(h + Puts(receipts, rs, k), PutReceipts(receipts, rs).value, k)
    decreases rs
  {
    hide EndsIn, PutReceipt, InRange;
    if rs == [] {
      assert h + [] == h;
    } else {
      var next := PutReceipt(receipts, rs[0]).value;
      var one := if KeyOfReceipt(rs[0]) == k then [next[k]] else [];
      PutIsEdge(receipts, rs[0], k, h);
      PutsAreEdges(next, rs[1..], k, h + one);
      ConcatAssociates(h, one, Puts(next, rs[1..], k));
    }
  }

  lemma ReceiptsInRange(q: Request)
    requires ValidAppend(q)
    ensures forall i :: 0 <= i < |q.receipts| ==> InRange(q.receipts[i].state)
  {
    hide ValidText, ValidDigest, ValidEvents, ValidSources, ValidFiles;
  }

  lemma StepIsEdges(s: Store, op: Op, k: ReceiptKey, h: seq<Receipt>)
    requires EndsIn(h, s.receipts, k)
    ensures EndsIn(h + StepPuts(s, op, k), Step(s, op).receipts, k)
  {
    hide EndsIn, PutReceipt, ValidDigest, ValidText;
    assert h + [] == h;
    match op
    case AppendOp(q) =>
      if Applies(s, q) {
        AppliesFacts(s, q);
        ReceiptsInRange(q);
        hide Applies, AfterAppend, ValidAppend, PutReceipts, InRange;
        PutsAreEdges(s.receipts, q.receipts, k, h);
      }
    case EnsureOp(_) =>
    case FilesOp(_) =>
    case PutOp(r) =>
      if ValidReceipt(r) && PutReceipt(s.receipts, r).Ok? { PutIsEdge(s.receipts, r, k, h); }
  }

  /** Over any run a receipt only moves along allowed edges, and what is stored is the last value put. */
  lemma {:induction false} ReceiptRuns(ops: seq<Op>, k: ReceiptKey)
    ensures EndsIn(History(ops, k), Final(ops).receipts, k)
  {
    if ops != [] {
      hide EndsIn, Step, StepPuts;
      ReceiptRuns(ops[..|ops| - 1], k);
      StepIsEdges(Final(ops[..|ops| - 1]), ops[|ops| - 1], k, History(ops[..|ops| - 1], k));
    }
  }

  /**
   * A put is accepted exactly when the command is new or the receipt is an allowed edge from the stored one. It then
   * stores exactly the receipt given and answers with it, again and again; otherwise nothing changes.
   */
  lemma PutStoresExactly(ops: seq<Op>, r: Receipt)
    ensures var s, k := Final(ops), KeyOfReceipt(r);
      && (PutResult(s, r).Ok? <==> ValidReceipt(r) && (k in s.receipts ==> Edge(s.receipts[k], r)))
      && (PutResult(s, r).Ok? ==> PutResult(s, r) == Ok(r) && AfterPut(s, r) == s.(receipts := s.receipts[k := r]))
      && (PutResult(s, r).Err? ==> AfterPut(s, r) == s)
      && (PutResult(s, r).Err? && !ValidReceipt(r) ==> PutResult(s, r).error == InvalidArgument)
      && (PutResult(s, r).Err? && ValidReceipt(r) ==>
            (&& k in s.receipts
             && PutResult(s, r).error == if s.receipts[k].digest != r.digest then CommandIdConflict else ReceiptConflict))
      && PutResult(AfterPut(s, r), r) == PutResult(s, r) && AfterPut(AfterPut(s, r), r) == AfterPut(s, r)
  {
    var s, k := Final(ops), KeyOfReceipt(r);
    ReceiptRuns(ops, k);
    hide Final, History, ValidText, ValidDigest;
    if k in s.receipts {
      assert KeyOfReceipt(s.receipts[k]) == k;
      if Edge(s.receipts[k], r) { assert s.receipts[k].(state := r.state, body := r.body) == r; }
    }
    if PutResult(s, r).Ok? {
      assert s.receipts[k := r][k := r] == s.receipts[k := r];
    }
  }

  // ---------------------------------------------------------------- what edges amount to

  /** How far along its life a receipt is. */
  function Rank(state: int): nat {
    if state == RECEIVED then 0 else if state == ACCEPTED then 1 else if state == RUNNING then 2 else 3
  }

  function Changes(h: seq<Receipt>): nat {
    if |h| < 2 then 0 else Changes(h[..|h| - 1]) + if h[|h| - 1].state != h[|h| - 2].state then 1 else 0
  }

  lemma {:induction false} ChangesClimb(h: seq<Receipt>, k: ReceiptKey)
    requires IsRun(h, k) && h != []
    ensures Rank(h[0].state) + Changes(h) <= Rank(h[|h| - 1].state)
  {
    if |h| > 1 {
      var init := h[..|h| - 1];
      ChangesClimb(init, k);
      assert Edge(h[|h| - 2], h[|h| - 1]);
    }
  }

  lemma {:induction false} RunIsFrozen(h: seq<Receipt>, k: ReceiptKey, i: nat, j: nat)
    requires IsRun(h, k) && i <= j < |h|
    ensures h[i].digest == h[j].digest && (h[i].state in {4, 5, 6, 7} ==> h[i] == h[j])
  {
    if i < j {
      RunIsFrozen(h, k, i, j - 1);
      assert Edge(h[j - 1], h[j]);
    }
  }

  /**
   * Over any run a receipt's digest never changes, its state changes at most three times, and once terminal it is
   * frozen.
   */
  lemma ReceiptLife(ops: seq<Op>, k: ReceiptKey)
    ensures Changes(History(ops, k)) <= 3
    ensures forall i, j :: 0 <= i <= j < |History(ops, k)| ==> History(ops, k)[i].digest == History(ops, k)[j].digest
    ensures forall i, j :: 0 <= i <= j < |History(ops, k)| && History(ops, k)[i].state in {4, 5, 6, 7} ==>
      History(ops, k)[i] == History(ops, k)[j]
  {
    var h := History(ops, k);
    ReceiptRuns(ops, k);
    hide Final, History, IsRun;
    if h != [] { ChangesClimb(h, k); }
    forall i, j | 0 <= i <= j < |h|
      ensures h[i].digest == h[j].digest && (h[i].state in {4, 5, 6, 7} ==> h[i] == h[j])
    {
      RunIsFrozen(h, k, i, j);
    }
  }
}
