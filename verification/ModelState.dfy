/** Per-sequence model state: what a state holds after feeding, rolling back,
    checkpointing, snapshotting and restoring.

    The numeric model is abstract. A position-indexed cache is modelled by the
    tokens whose rows it contains, a recurrent part by the tokens folded into
    it, and a forward pass by an arbitrary function of both. */
module States {
  import opened Wrappers

  type Token = nat
  type Logits = seq<real>

  /** Logits of the last position, from the attention context and the tokens
      folded into the recurrent part (the same argument twice without one). */
  type Compute = (seq<Token>, seq<Token>) -> Logits

  /** Whether a forward of the second sequence after the first is sure not to
      fail. */
  type Sure = (seq<Token>, seq<Token>) -> bool

  /** What kind of model a state belongs to, and how large its parts are. */
  datatype Shape = Shape(id: nat, perToken: nat, fixed: nat)

  /** The size of a snapshot of `n` positions. */
  function SnapshotBytes(shape: Shape, recurrent: bool, n: nat): nat {
    n * shape.perToken + if recurrent then shape.fixed else 0
  }

  datatype Payload =
    | KvRows(shape: Shape, rows: seq<Token>)
    | KvAndRecurrent(shape: Shape, rows: seq<Token>, folded: seq<Token>)

  datatype Snapshot = Snapshot(len: nat, bytes: nat, data: Payload)

  /** The snapshot is the state after exactly `tokens`. */
  predicate SnapshotOf(snap: Snapshot, tokens: seq<Token>) {
    snap.len == |tokens| && snap.data.rows == tokens &&
    (snap.data.KvAndRecurrent? ==> snap.data.folded == tokens)
  }

  datatype Pending = Pending(base: nat, n: nat)

  class ModelState {
    /** Rollback relies on checkpoints (the state has recurrent layers). */
    const recurrent: bool
    const shape: Shape
    /** Tokens whose rows were written, by position; rows past the fed length
        are stale and overwritten before they are read. */
    var rows: seq<Token>
    var folded: seq<Token>
    /** Positions fed; only the recurrent implementation tracks it. */
    var len: nat
    var ckpt: Option<seq<Token>>
    /** A verification forward whose recurrent update is not applied yet. */
    var pending: Option<Pending>

    ghost predicate CheckpointWithin(fed: seq<Token>)
      reads this
    {
      ckpt.Some? ==> ckpt.value <= fed
    }

    /** The state is exactly as if `fed` had been fed. */
    ghost predicate Holds(fed: seq<Token>)
      reads this
    {
      fed <= rows &&
      (recurrent ==> len == |fed| && folded == fed && pending.None? && CheckpointWithin(fed))
    }

    /** `fed` was fed, then `batch` provisionally. */
    ghost predicate HoldsProvisionally(fed: seq<Token>, batch: seq<Token>)
      reads this
    {
      fed + batch <= rows &&
      (recurrent ==>
        pending == Some(Pending(|fed|, |batch|)) && len == |fed| + |batch| && folded == fed && CheckpointWithin(fed))
    }

    constructor (recurrent: bool, shape: Shape)
      ensures Holds([]) && this.recurrent == recurrent && this.shape == shape
    {
      this.recurrent := recurrent;
      this.shape := shape;
      rows, folded, len, ckpt, pending := [], [], 0, None, None;
    }

    /** Works from any state, also after a failed forward. */
    method Reset()
      modifies this
      ensures Holds([])
    {
      if recurrent {
        folded, len, ckpt, pending := [], 0, None, None;
      }
    }

    method DiscardPending()
      modifies this`len, this`pending
      ensures pending == None
      ensures len == if old(pending).Some? then old(pending).value.base else old(len)
    {
      if pending.Some? {
        len := pending.value.base;
        pending := None;
      }
    }

    /** Roll back to the first `n` positions. A position-indexed cache always
        can; a recurrent state only to its length, 0 or its checkpoint. */
    method Truncate(n: nat, ghost fed: seq<Token>, ghost batch: seq<Token>) returns (ok: bool)
      requires (batch == [] && Holds(fed)) || HoldsProvisionally(fed, batch)
      requires n <= |fed + batch|
      modifies this
      ensures ok ==> Holds((fed + batch)[..n])
      ensures !ok ==> Holds(fed) && ckpt == old(ckpt)
      ensures ok <==> !recurrent || |fed| <= n || n == 0 || (old(ckpt).Some? && |old(ckpt).value| == n)
      decreases 1
    {
      if !recurrent {
        return true;
      }
      if pending.Some? && n > pending.value.base {
        ok := Commit(n, fed, batch);
        return;
      }
      DiscardPending();
      assert fed <= fed + batch <= rows;
      assert (fed + batch)[..n] == fed[..n];
      if n == len {
        return true;
      }
      if n == 0 {
        Reset();
        return true;
      }
      if n < len && ckpt.Some? && |ckpt.value| == n {
        folded := ckpt.value;
        len := n;
        return true;
      }
      return false;
    }

    /** Finish a verification forward: keep the first `n` positions. */
    method Commit(n: nat, ghost fed: seq<Token>, ghost batch: seq<Token>) returns (ok: bool)
      requires (batch == [] && Holds(fed)) || HoldsProvisionally(fed, batch)
      requires |fed| <= n <= |fed + batch|
      modifies this
      ensures ok && Holds((fed + batch)[..n])
      decreases if recurrent && pending.Some? then 0 else 2
    {
      if !recurrent || pending.None? {
        if recurrent && n == len {
          assert (fed + batch)[..n] == fed;
          return true;
        }
        ok := Truncate(n, fed, batch);
        return;
      }
      var p := pending.value;
      pending := None;
      // Replay the recurrent update of the first `n - base` provisional tokens.
      folded := folded + rows[p.base..n];
      len := n;
      assert rows[p.base..n] == (fed + batch)[|fed|..n];
      assert (fed + batch)[..n] == fed + (fed + batch)[|fed|..n];
      return true;
    }

    /** Save a restore point at the current length. */
    method Checkpoint(ghost fed: seq<Token>)
      requires Holds(fed)
      modifies this`ckpt
      ensures Holds(fed) && ckpt == if recurrent then Some(fed) else old(ckpt)
    {
      if recurrent {
        ckpt := Some(folded);
      }
    }

    method CheckpointLen() returns (r: Option<nat>)
      ensures r == if recurrent && ckpt.Some? then Some(|ckpt.value|) else None
    {
      if recurrent && ckpt.Some? {
        return Some(|ckpt.value|);
      }
      return None;
    }

    /** Of the `fed` positions held, the state can represent the first `n` alone. */
    predicate Represents(n: nat, fed: nat)
      reads this
    {
      !recurrent || n == fed || (ckpt.Some? && |ckpt.value| == n)
    }

    /** A copy of the first `n` positions, if this state can represent them. */
    method TakeSnapshot(n: nat, ghost fed: seq<Token>) returns (r: Option<Snapshot>)
      requires Holds(fed) && n <= |fed|
      ensures r.Some? ==> SnapshotOf(r.value, fed[..n])
      ensures r.Some? ==> r.value.data.shape == shape && r.value.data.KvAndRecurrent? == recurrent
      ensures r.Some? ==> r.value.bytes == n * shape.perToken + (if recurrent then shape.fixed else 0)
      ensures r.Some? <==> Represents(n, |fed|)
    {
      var bytes := SnapshotBytes(shape, recurrent, n);
      assert rows[..n] == fed[..n];
      if !recurrent {
        return Some(Snapshot(n, bytes, KvRows(shape, rows[..n])));
      }
      if n == len {
        assert fed[..n] == fed;
        return Some(Snapshot(n, bytes, KvAndRecurrent(shape, rows[..n], folded)));
      }
      if ckpt.Some? && |ckpt.value| == n {
        return Some(Snapshot(n, bytes, KvAndRecurrent(shape, rows[..n], ckpt.value)));
      }
      return None;
    }

    /** Overwrite the state with `snap`, whatever it held before. A snapshot of
        another kind or shape of state is refused and changes nothing. */
    method Restore(snap: Snapshot, ghost tokens: seq<Token>) returns (ok: bool)
      requires SnapshotOf(snap, tokens)
      modifies this
      ensures ok <==> snap.data.shape == shape && snap.data.KvAndRecurrent? == recurrent
      ensures ok ==> Holds(tokens)
      ensures !ok ==> unchanged(this)
    {
      if snap.data.shape != shape || snap.data.KvAndRecurrent? != recurrent {
        return false;
      }
      rows := snap.data.rows + if |rows| > snap.len then rows[snap.len..] else [];
      if recurrent {
        folded, len, ckpt, pending := snap.data.folded, snap.len, None, None;
      }
      return true;
    }

    /** Feed `tokens` at the current length; returns the logits of every fed
        position, or nothing if the forward failed, after which the contents
        are unspecified. It can fail only where `sure` does not exclude it. */
    method Forward(compute: Compute, sure: Sure, tokens: seq<Token>, pos: nat, provisional: bool, maxSeq: nat,
                   ghost fed: seq<Token>)
      returns (r: Option<seq<Logits>>)
      requires Holds(fed) && |fed| == pos && tokens != []
      requires pos + |tokens| <= maxSeq
      modifies this
      ensures r.None? ==> !sure(fed, tokens)
      ensures r.Some? ==> |r.value| == |tokens| && ckpt == old(ckpt)
      ensures r.Some? ==> forall i | 0 <= i < |tokens| :: r.value[i] == Logit(compute, fed + tokens[..i + 1])
      ensures r.Some? ==>
        if provisional then HoldsProvisionally(fed, tokens) else Holds(fed + tokens)
    {
      var context := rows[..pos];
      var recur := if recurrent then folded else context;
      assert context == fed && recur == fed;
      var breaks: bool := *;
      if breaks && !sure(context, tokens) {
        rows, folded, len, ckpt, pending := *, *, *, *, *;
        return None;
      }
      var all := [];
      for i := 0 to |tokens|
        invariant |all| == i
        invariant forall j | 0 <= j < i :: all[j] == Logit(compute, fed + tokens[..j + 1])
      {
        all := all + [compute(context + tokens[..i + 1], recur + tokens[..i + 1])];
      }
      rows := context + tokens + if |rows| > pos + |tokens| then rows[pos + |tokens|..] else [];
      if recurrent {
        if provisional {
          pending := Some(Pending(pos, |tokens|));
        } else {
          folded := folded + tokens;
        }
        len := pos + |tokens|;
      }
      return Some(all);
    }
  }

  /** The language model as a function of the fed sequence. */
  function Logit(compute: Compute, fed: seq<Token>): Logits {
    compute(fed, fed)
  }
}
