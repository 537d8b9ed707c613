/** The saved-quotes store: a JSON list of quotes under one `localStorage`
    key, newest first. */
module QuoteStore {
  import opened Types
  import opened SeqUtil

  /** The error `deleteQuote` rejects with when no quote has the id. */
  const NotFoundMessage: string := "見積もりが見つかりませんでした"

  function QuoteId(q: Quote): (r: string) {
    q.id
  }

  /** The quote `saveQuote` writes: an empty id is replaced by `Q-<timestamp>`
      and a missing or empty creation date by the current ISO time; every other
      field is kept. */
  function Stamped(quote: Quote, timestamp: nat, nowIso: string): (r: Quote)
    ensures r.specs == quote.specs && r.price == quote.price
    ensures r.turnaround == quote.turnaround && r.discountApplied == quote.discountApplied
    ensures quote.id != "" ==> r.id == quote.id
    ensures quote.id == "" ==> r.id == "Q-" + NatToDecimal(timestamp)
    ensures quote.createdAt.Some? && quote.createdAt.value != "" ==> r.createdAt == quote.createdAt
    ensures !(quote.createdAt.Some? && quote.createdAt.value != "") ==> r.createdAt == Some(nowIso)
  {
    var id := if quote.id != "" then quote.id else "Q-" + NatToDecimal(timestamp);
    var createdAt := if quote.createdAt.Some? && quote.createdAt.value != "" then quote.createdAt
                     else Some(nowIso);
    quote.(id := id, createdAt := createdAt)
  }

  /** The list `saveQuote` stores: the stamped quote in front of the saved ones. */
  function AfterSave(saved: seq<Quote>, quote: Quote, timestamp: nat, nowIso: string): (r: seq<Quote>)
    ensures |r| == |saved| + 1
    ensures r[0] == Stamped(quote, timestamp, nowIso) && r[1..] == saved
  {
    [Stamped(quote, timestamp, nowIso)] + saved
  }

  /** The outcome `deleteQuote` computes: the list without the quotes with that
      id, or the not-found error when the filter removes nothing. */
  function AfterDelete(saved: seq<Quote>, quoteId: string): (r: Result<seq<Quote>, string>)
    ensures r.Failure? <==> forall q :: q in saved ==> q.id != quoteId
    ensures r.Failure? ==> r.error == NotFoundMessage
    ensures r.Success? ==> |r.value| < |saved|
    ensures r.Success? ==> forall q :: q in r.value <==> q in saved && q.id != quoteId
  {
    var filtered := RemoveByKey(saved, QuoteId, quoteId);
    if |filtered| == |saved| then Failure(NotFoundMessage) else Success(filtered)
  }

  /** The domain-level store: reads and writes of the `saved_quotes` key. */
  class Store {
    var stored: Stored<Quote>

    constructor (initial: Stored<Quote>)
      ensures stored == initial
    {
      stored := initial;
    }

    /** `getSavedQuotes`. */
    function GetSavedQuotes(): (r: seq<Quote>)
      reads this
      ensures stored.Present? ==> r == stored.items
      ensures !stored.Present? ==> r == []
    {
      StoredItems(stored)
    }

    /** `saveQuote`: prepend the stamped quote and write the list back. The
        clock reading and its ISO form are parameters. */
    method SaveQuote(quote: Quote, timestamp: nat, nowIso: string) returns (saved: Quote)
      modifies this
      ensures saved == Stamped(quote, timestamp, nowIso)
      ensures stored == Present(AfterSave(old(GetSavedQuotes()), quote, timestamp, nowIso))
      ensures GetSavedQuotes()[0] == saved && GetSavedQuotes()[1..] == old(GetSavedQuotes())
    {
      var existingQuotes := GetSavedQuotes();
      var newQuote := Stamped(quote, timestamp, nowIso);
      var updatedQuotes := [newQuote] + existingQuotes;
      stored := Present(updatedQuotes);
      saved := newQuote;
    }

    /** `deleteQuote`: write back the list without the quotes with this id, or
        fail without writing when there is none. */
    method DeleteQuote(quoteId: string) returns (result: Result<bool, string>)
      modifies this
      ensures result.Failure? <==> forall q :: q in old(GetSavedQuotes()) ==> q.id != quoteId
      ensures result.Failure? ==> result.error == NotFoundMessage && stored == old(stored)
      ensures result.Success? ==> result.value
      ensures result.Success? ==> stored == Present(AfterDelete(old(GetSavedQuotes()), quoteId).value)
    {
      var existingQuotes := GetSavedQuotes();
      var filteredQuotes := RemoveByKey(existingQuotes, QuoteId, quoteId);
      if |filteredQuotes| == |existingQuotes| {
        return Failure(NotFoundMessage);
      }
      stored := Present(filteredQuotes);
      result := Success(true);
    }
  }

  /** Deleting a freshly saved quote by the id it was saved under restores the
      earlier list, provided no earlier quote shared that id. */
  lemma {:induction false} DeleteAfterSave(saved: seq<Quote>, quote: Quote, timestamp: nat, nowIso: string)
    requires forall q :: q in saved ==> q.id != Stamped(quote, timestamp, nowIso).id
    ensures AfterDelete(AfterSave(saved, quote, timestamp, nowIso), Stamped(quote, timestamp, nowIso).id)
            == Success(saved)
  {
    var stamped := Stamped(quote, timestamp, nowIso);
    var all := AfterSave(saved, quote, timestamp, nowIso);
    assert all == [stamped] + saved;
    RemoveByKeyConcat([stamped], saved, QuoteId, stamped.id);
    assert [stamped][..0] == [];
    assert RemoveByKey([stamped], QuoteId, stamped.id) == [];
    RemoveByKeyNone(saved, QuoteId, stamped.id);
    assert RemoveByKey(all, QuoteId, stamped.id) == saved;
  }

  /** A second delete of the same id fails: nothing with that id is left. */
  lemma DeleteTwice(saved: seq<Quote>, quoteId: string)
    requires AfterDelete(saved, quoteId).Success?
    ensures AfterDelete(AfterDelete(saved, quoteId).value, quoteId) == Failure(NotFoundMessage)
  {
  }

  /** Deleting one id keeps every quote with another id. */
  lemma DeleteKeepsOthers(saved: seq<Quote>, quoteId: string, q: Quote)
    requires q in saved && q.id != quoteId
    ensures AfterDelete(saved, quoteId).Failure? || q in AfterDelete(saved, quoteId).value
  {
  }
}
