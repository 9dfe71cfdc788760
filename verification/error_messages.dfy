/**
 The de-duplicated, ordered queue of transient error notifications that both
 screen states keep. Insertion order is display order; a message text is
 appended only if no queued entry already carries the same text.
 */
module ErrorMessages {
  import opened UiModel

  /** Some queued entry carries exactly the text `m`. */
  ghost predicate Contains(errors: seq<ErrorMessage>, m: string) {
    exists i :: 0 <= i < |errors| && errors[i].message == m
  }

  /** No two queued entries share a message text. */
  ghost predicate NoDuplicateMessages(errors: seq<ErrorMessage>) {
    forall i, j :: 0 <= i < j < |errors| ==> errors[i].message != errors[j].message
  }

  /** Kotlin's `errors.any { it.message == m }`, scanning from the front. */
  function AnyWithMessage(errors: seq<ErrorMessage>, m: string): (r: bool)
    ensures r <==> Contains(errors, m)
  {
    if |errors| == 0 then false
    else if errors[0].message == m then true
    else
      var rest := AnyWithMessage(errors[1..], m);
      assert Contains(errors[1..], m) ==> Contains(errors, m) by {
        if Contains(errors[1..], m) {
          var i :| 0 <= i < |errors[1..]| && errors[1..][i].message == m;
          assert errors[i + 1].message == m;
        }
      }
      rest
  }

  /**
   The shared body of both screens' `handleErrorAndStopLoading`: the queue is
   kept when the text is already present, otherwise one entry with the fresh
   id `newId` is appended at the end.
   */
  function AppendUnique(errors: seq<ErrorMessage>, m: string, newId: int): (r: seq<ErrorMessage>)
    ensures Contains(errors, m) ==> r == errors
    ensures !Contains(errors, m) ==> r == errors + [ErrorMessage(newId, m)]
    ensures Contains(r, m)
    ensures |errors| <= |r| <= |errors| + 1
    ensures r[..|errors|] == errors
    ensures forall k :: |errors| <= k < |r| ==> r[k].message == m
    ensures NoDuplicateMessages(errors) ==> NoDuplicateMessages(r)
  {
    if AnyWithMessage(errors, m) then errors
    else
      var r := errors + [ErrorMessage(newId, m)];
      assert r[|errors|].message == m;
      r
  }

  /** Appending a text already present changes nothing, whatever the id. */
  lemma AppendUniqueIdempotent(errors: seq<ErrorMessage>, m: string, id1: int, id2: int)
    ensures AppendUnique(AppendUnique(errors, m, id1), m, id2) == AppendUnique(errors, m, id1)
  {
  }

  /** Reporting the same text twice on an empty queue leaves exactly one entry. */
  lemma SameMessageTwiceGivesOneEntry(m: string, id1: int, id2: int)
    ensures |AppendUnique(AppendUnique([], m, id1), m, id2)| == 1
  {
  }
}
