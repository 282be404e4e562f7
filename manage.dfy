/**
 * Managing memory banks (app/routes/manage.py): creating a bank with its
 * payload indexes, deleting a bank, and forgetting one memory by its id.
 */
module Manage {
  import opened Wrappers
  import opened Errors
  import opened Store
  import opened Models

  /** The payload fields every new bank indexes, in the order they are indexed. */
  const IndexFields: seq<string> := ["sentiment", "entities", "tags"]

  /** The bank the create action leaves behind: DIM-sized cosine vectors, no points, the three fields indexed. */
  function CreatedBank(dim: int): Collection
  {
    Collection(dim, Cosine, map[], IndexFields)
  }

  function CreatedMessage(memoryBank: string): string
  {
    "Memory Bank '" + memoryBank + "' created successfully"
  }

  function DeletedMessage(memoryBank: string): string
  {
    "Memory Bank '" + memoryBank + "' has been deleted."
  }

  function ForgottenMessage(memoryBank: string, uuid: string): string
  {
    "Memory with UUID '" + uuid + "' has been forgotten from Memory Bank '" + memoryBank + "'."
  }

  /** The exception raised by forget without a UUID, as the handler's catch-all turns it into text. */
  const MissingUuidDetail := Errors.Str(Http(400, "UUID must be provided for forget action"))

  /**
   * manage_memories. `dim` is int(DIM) from the environment, or the text of the
   * error converting it. The reply is the confirmation message, or None for an
   * action the handler has no branch for; every failure is a 500 carrying str(e).
   */
  method ManageMemories(params: ManageMemoryParams, dim: Result<int, string>, store: VectorStore)
    returns (r: Result<Option<string>, HttpError>)
    modifies store
    ensures var bank := params.memoryBank;
      && (params.action == "create" ==>
            && (dim.Err? ==> r == Err(HttpError(500, dim.error)) && store.collections == old(store.collections))
            && (dim.Ok? && bank in old(store.collections) ==>
                  r == Err(HttpError(500, Message(AlreadyExists(bank)))) && store.collections == old(store.collections))
            && (dim.Ok? && bank !in old(store.collections) && dim.value < 1 ==>
                  r == Err(HttpError(500, Message(BadSize(dim.value)))) && store.collections == old(store.collections))
            && (dim.Ok? && bank !in old(store.collections) && dim.value >= 1 ==>
                  r == Ok(Some(CreatedMessage(bank)))
                  && store.collections == old(store.collections)[bank := CreatedBank(dim.value)]))
      && (params.action == "delete" ==>
            && store.collections == old(store.collections) - {bank}
            && r == if bank in old(store.collections) then Ok(Some(DeletedMessage(bank)))
                    else Err(HttpError(500, Message(NotFound(bank)))))
      && (params.action == "forget" ==>
            && (params.uuid.None? ==>
                  r == Err(HttpError(500, MissingUuidDetail)) && store.collections == old(store.collections))
            && (params.uuid.Some? && bank !in old(store.collections) ==>
                  r == Err(HttpError(500, Message(NotFound(bank)))) && store.collections == old(store.collections))
            && (params.uuid.Some? && bank in old(store.collections) ==>
                  var c := old(store.collections)[bank];
                  && r == Ok(Some(ForgottenMessage(bank, params.uuid.value)))
                  && store.collections == old(store.collections)[bank := c.(points := c.points - {params.uuid.value})]))
      && (params.action !in {"create", "delete", "forget"} ==>
            r == Ok(None) && store.collections == old(store.collections))
  {
    var bank := params.memoryBank;
    if params.action == "create" {
      if dim.Err? {
        return Err(HttpError(500, dim.error));
      }
      var created := store.CreateCollection(bank, dim.value, Cosine);
      if created.Fail? {
        return Err(HttpError(500, Message(created.error)));
      }
      // the bank now exists, so indexing a field cannot fail
      var i := 0;
      while i < |IndexFields|
        invariant 0 <= i <= |IndexFields|
        invariant store.collections == old(store.collections)[bank := Collection(dim.value, Cosine, map[], IndexFields[..i])]
      {
        var _ := store.CreatePayloadIndex(bank, IndexFields[i]);
        assert IndexFields[i] !in IndexFields[..i];
        assert IndexFields[..i] + [IndexFields[i]] == IndexFields[..i + 1];
        i := i + 1;
      }
      assert IndexFields[..|IndexFields|] == IndexFields;
      return Ok(Some(CreatedMessage(bank)));
    } else if params.action == "delete" {
      var deleted := store.DeleteCollection(bank);
      if deleted.Fail? {
        return Err(HttpError(500, Message(deleted.error)));
      }
      return Ok(Some(DeletedMessage(bank)));
    } else if params.action == "forget" {
      if params.uuid.None? {
        return Err(HttpError(500, MissingUuidDetail));
      }
      var forgotten := store.DeletePoints(bank, [params.uuid.value]);
      assert (set i | i in [params.uuid.value]) == {params.uuid.value};
      if forgotten.Fail? {
        return Err(HttpError(500, Message(forgotten.error)));
      }
      return Ok(Some(ForgottenMessage(bank, params.uuid.value)));
    }
    r := Ok(None);
  }

  /** Creating a bank that did not exist and then deleting it leaves the store as it was. */
  method CreateThenDelete(memoryBank: string, dim: int, store: VectorStore)
    modifies store
    requires memoryBank !in store.collections && dim >= 1
    ensures store.collections == old(store.collections)
  {
    var _ := ManageMemories(ManageMemoryParams(memoryBank, "create", None), Ok(dim), store);
    var _ := ManageMemories(ManageMemoryParams(memoryBank, "delete", None), Ok(dim), store);
  }
}
