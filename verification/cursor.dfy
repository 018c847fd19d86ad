/** Reading the documents a find returns: the driver's cursor is abstracted to
    the sequence of items it yields, each of which decodes or fails, plus the
    error the cursor reports once iteration stops. */
module Cursors {

  import opened Results
  import opened Documents

  /** One item delivered by `cursor.Next`: decoding it into a document either
      succeeds or fails with a driver message. */
  datatype Item = Decodable(doc: Document) | Undecodable(cause: string)

  /** The items a cursor yields, in store order, and its terminal `Err()`. */
  datatype Cursor = Cursor(items: seq<Item>, failure: Option<string>)

  /** What `collection.Find` returns: an error, or an open cursor. */
  datatype FindOutcome = FindFailed(cause: string) | Opened(cursor: Cursor)

  /** The error kinds `Invoke` distinguishes; the driver's message is kept as
      an opaque cause. */
  datatype InvokeError =
    | QueryFailed(cause: string)    // "unable to execute query"
    | ParseFailed(cause: string)    // "unable to parse document"
    | CursorFailed(cause: string)   // "cursor error"

  predicate AllDecodable(items: seq<Item>)
  {
    forall i :: 0 <= i < |items| ==> items[i].Decodable?
  }

  /** The accumulation loop: append each decoded item, abort on the first item
      that does not decode, and after the last item surface the cursor's error.
      Success means every item decoded and the cursor ended cleanly, and then the
      result is the documents in cursor order, one per item; there is never a
      partial result. */
  function Drain(items: seq<Item>, failure: Option<string>): (r: Result<seq<Document>, InvokeError>)
    ensures r.Success? <==> AllDecodable(items) && failure.None?
    ensures r.Success? ==> |r.value| == |items|
    ensures r.Success? ==> forall i :: 0 <= i < |items| ==> r.value[i] == items[i].doc
    ensures AllDecodable(items) && failure.Some? ==> r == Failure(CursorFailed(failure.value))
    ensures r.Failure? ==> r.error.ParseFailed? || r.error.CursorFailed?
    decreases |items|
  {
    if |items| == 0 then
      match failure
      case None => Success([])
      case Some(e) => Failure(CursorFailed(e))
    else
      match items[0]
      case Undecodable(e) => Failure(ParseFailed(e))
      case Decodable(d) =>
        match Drain(items[1..], failure)
        case Success(ds) => Success([d] + ds)
        case Failure(e) => Failure(e)
  }

  /** The first item that fails to decode decides the error: items after it
      are never looked at, and neither is the cursor's terminal error. */
  lemma {:induction false} FirstUndecodableAborts(items: seq<Item>, failure: Option<string>, k: nat)
    requires k < |items| && items[k].Undecodable?
    requires forall j :: 0 <= j < k ==> items[j].Decodable?
    ensures Drain(items, failure) == Failure(ParseFailed(items[k].cause))
    decreases k
  {
    if k > 0 {
      var rest := items[1..];
      assert forall j :: 0 <= j < k - 1 ==> rest[j] == items[j + 1];
      FirstUndecodableAborts(rest, failure, k - 1);
    }
  }

  /** The documents `Invoke` returns for a find outcome: a find error surfaces
      before any item is read, otherwise the cursor is drained. */
  function Gather(outcome: FindOutcome): (r: Result<seq<Document>, InvokeError>)
    ensures r.Success? <==> outcome.Opened? && AllDecodable(outcome.cursor.items) && outcome.cursor.failure.None?
    ensures r.Success? ==> |r.value| == |outcome.cursor.items|
    ensures r.Success? ==> forall i :: 0 <= i < |r.value| ==> r.value[i] == outcome.cursor.items[i].doc
    ensures (r.Failure? && r.error.QueryFailed?) <==> outcome.FindFailed?
    ensures outcome.FindFailed? ==> r.error.cause == outcome.cause
  {
    match outcome
    case FindFailed(e) => Failure(QueryFailed(e))
    case Opened(c) => Drain(c.items, c.failure)
  }

  /** A find on a collection with no matching documents gives an empty result,
      not an error. */
  lemma EmptyCursorGivesEmptyResult(outcome: FindOutcome)
    requires outcome.Opened? && |outcome.cursor.items| == 0 && outcome.cursor.failure.None?
    ensures Gather(outcome) == Success([])
  {
  }
}
