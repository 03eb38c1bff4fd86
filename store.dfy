/**
 * The service around the scoring: an in-memory table of the receipts processed so far,
 * keyed by the decimal rendering of a counter, and the two endpoints that fill it and
 * read it. The JSON decoding of a request body is given as its outcome (a receipt, or
 * a decoding failure), and a reply is the status and payload the handler writes.
 */
module Store {
  import opened Wrappers
  import opened Numbers
  import opened Receipts
  import opened Points

  /** What `POST /receipts/process` answers: 400 "Please verify input.", or 200 with `{"id": id}`. */
  datatype ProcessReply = ProcessBadRequest | Created(id: string)

  /**
   * What `GET /receipts/{id}/points` answers: 404 "No receipt found for that ID.",
   * 400 "Please verify input.", or 200 with `{"points": points}`.
   */
  datatype PointsReply = NotFound | BadRequest | Awarded(points: int)

  /** The ids handed out once the counter has reached `n`: `"1"` to `Itoa(n)`. */
  function IssuedIds(n: nat): set<string> {
    set k | 1 <= k <= n :: Itoa(k)
  }

  /** The next id is new, and it is the only one the next step adds. */
  lemma IssuedIdsNext(n: nat)
    ensures Itoa(n + 1) !in IssuedIds(n)
    ensures IssuedIds(n + 1) == IssuedIds(n) + {Itoa(n + 1)}
  {
    forall k | 1 <= k <= n
      ensures Itoa(k) != Itoa(n + 1)
    {
      ItoaInjective(k, n + 1);
    }
    assert IssuedIds(n + 1) == IssuedIds(n) + {Itoa(n + 1)};
  }

  /** No id is handed out twice: after `n` steps there are `n` distinct ids. */
  lemma {:induction false} IssuedIdsCount(n: nat)
    ensures |IssuedIds(n)| == n
  {
    if n == 0 {
      assert IssuedIds(0) == {};
    } else {
      IssuedIdsCount(n - 1);
      IssuedIdsNext(n - 1);
    }
  }

  /**
   * An id was handed out exactly when it is the canonical decimal rendering of a
   * number between 1 and the counter: `"7"` may be known, `"07"`, `"+7"` and `"0"` never.
   */
  lemma IssuedIdsIff(n: nat, id: string)
    ensures id in IssuedIds(n) <==>
      (Atoi(id).Some? && 1 <= Atoi(id).value <= n && Itoa(Atoi(id).value) == id)
  {
    if id in IssuedIds(n) {
      var k :| 1 <= k <= n && Itoa(k) == id;
      AtoiItoa(k);
    }
  }

  /**
   * The reply to a points request for a known receipt: the handler tests the sign of
   * the number `calcPoints` returns, so a failure and a negative score both give 400.
   */
  function Reply(score: Outcome): (reply: PointsReply)
    ensures reply != NotFound
    ensures reply.Awarded? <==> score.Ok? && score.points >= 0
    ensures reply.Awarded? ==> reply.points == score.points
  {
    var value := GoValue(score);
    if value < 0 then BadRequest else Awarded(value)
  }

  /** The package state of the service: the `memory` table and the `idCounter` it draws ids from. */
  class ReceiptStore {
    var memory: map<string, Receipt>
    var idCounter: nat

    /** The table holds exactly the receipts of the ids handed out so far. */
    ghost predicate Valid()
      reads this
    {
      memory.Keys == IssuedIds(idCounter)
    }

    /** The state at start-up: nothing stored, the counter at zero. */
    constructor ()
      ensures Valid()
      ensures memory == map[] && idCounter == 0
    {
      memory := map[];
      idCounter := 0;
      assert IssuedIds(0) == {};
    }

    /** `generateID`: advances the counter and returns its new value. */
    method GenerateId() returns (id: nat)
      modifies this`idCounter
      ensures idCounter == old(idCounter) + 1
      ensures id == idCounter
    {
      idCounter := idCounter + 1;
      id := idCounter;
    }

    /**
     * `processReceiptHandler`: a body that does not decode is refused and changes
     * nothing; a receipt is stored under a new id, which is the reply.
     */
    method Process(decoded: Option<Receipt>) returns (reply: ProcessReply)
      requires Valid()
      modifies this
      ensures Valid()
      ensures decoded.None? ==>
        reply == ProcessBadRequest && memory == old(memory) && idCounter == old(idCounter)
      ensures decoded.Some? ==>
        idCounter == old(idCounter) + 1 && reply == Created(Itoa(idCounter))
        && memory == old(memory)[reply.id := decoded.value]
      ensures decoded.Some? ==> reply.id !in old(memory) && Atoi(reply.id) == Some(idCounter)
    {
      if decoded.None? {
        return ProcessBadRequest;
      }
      var n := GenerateId();
      var id := Itoa(n);
      IssuedIdsNext(n - 1);
      AtoiItoa(n);
      memory := memory[id := decoded.value];
      reply := Created(id);
    }

    /**
     * `getPointsHandler`: 404 for an id never handed out, otherwise the reply to the
     * number `calcPoints` returns for the stored receipt.
     */
    method GetPoints(id: string) returns (reply: PointsReply)
      ensures reply == NotFound <==> id !in memory
      ensures id in memory ==> reply == Reply(Score(memory[id]))
    {
      if id !in memory {
        return NotFound;
      }
      var receipt := memory[id];
      var points := CalcPoints(receipt);
      if GoValue(points) < 0 {
        return BadRequest;
      }
      reply := Awarded(GoValue(points));
    }
  }

  /**
   * The round trip of the handler tests: a receipt that is processed and then asked
   * for by the id it was given is found, and scored by the rules.
   */
  method ProcessThenFetch(store: ReceiptStore, receipt: Receipt)
    returns (created: ProcessReply, fetched: PointsReply)
    requires store.Valid()
    modifies store
    ensures store.Valid()
    ensures created.Created? && created.id == Itoa(store.idCounter)
    ensures fetched == Reply(Score(receipt))
    ensures store.memory == old(store.memory)[created.id := receipt]
  {
    created := store.Process(Some(receipt));
    fetched := store.GetPoints(created.id);
  }
}
