/** The saved-query API handlers: listing a user's saved queries (parsing
    the sort order and checking the column filters), creating one, and
    deleting one. The database, the request parser and the column metadata
    of the SavedQuery model are parameters; the handlers' own decisions,
    and the store calls they make, are the model. */
module SavedQueries {
  import opened Wrappers
  import opened Text
  import opened QueryFilters

  const StatusCreated: int := 201
  const StatusNoContent: int := 204
  const StatusBadRequest: int := 400
  const StatusNotFound: int := 404
  const StatusInternalServerError: int := 500

  /** The text after which an insert failure counts as a name clash. */
  const UniqueViolation: string := "duplicate key value violates unique constraint"

  /** A user, by the text of their id. */
  type UserId = string

  /** What an error response says, beyond its status code: an error's own
      text, or one of the handlers' fixed messages. */
  datatype Detail =
    | Message(text: string)
    | EmptyNameOrQuery
    | DuplicateName
    | QueryDoesNotExist
    | NotOwner
    | IdMalformed
    | InternalServerError
    | NotSortable
    | BadQueryParameterFilters
    | Refused(refusal: Refusal)

  /** The wording of the messages the handlers spell out themselves. */
  function DetailText(d: Detail): Option<string> {
    match d
    case Message(text) => Some(text)
    case EmptyNameOrQuery => Some("the name and/or query field is empty")
    case DuplicateName => Some("duplicate name for saved query: please choose a different name")
    case QueryDoesNotExist => Some("query does not exist")
    case NotOwner => Some("invalid saved_query_id supplied")
    case _ => None
  }

  /** A saved query as the store holds it. */
  datatype SavedQuery = SavedQuery(id: int, user: UserId, name: string, query: string)

  /** What a handler answers. */
  datatype Reply =
    | ErrorReply(status: int, detail: Detail)
    | Created(saved: SavedQuery)
    | NoContent
  {
    function Status(): int {
      match this
      case ErrorReply(status, _) => status
      case Created(_) => StatusCreated
      case NoContent => StatusNoContent
    }
  }

  /** The calls a handler makes on the store, in order. */
  datatype StoreCall =
    | Insert(user: UserId, name: string, query: string)
    | CheckOwner(user: UserId, id: int)
    | Remove(id: int)

  /** A handler's reply together with the store calls it made. */
  datatype Outcome = Outcome(reply: Reply, calls: seq<StoreCall>)

  /** A store failure: the record is missing, or some other error with its text. */
  datatype StoreError = NotFound | Failure(message: string)

  // ---------------------------------------------------------------------
  // Sort order

  /** One sort_by value: a column, descending when the value began with '-'. */
  datatype SortKey = SortKey(column: string, descending: bool)

  /** The sort_by value a key is written as. */
  function SortValue(k: SortKey): string {
    if k.descending then "-" + k.column else k.column
  }

  /** How the list handler splits a sort_by value: one leading '-' is taken
      off and makes the order descending. An empty value is an ascending sort
      on the empty column (the handler as written panics there instead, see
      SortKeyAsWritten). */
  function SplitSortValue(value: string): (r: SortKey)
    ensures r.descending <==> |value| > 0 && value[0] == '-'
    ensures SortValue(r) == value
  {
    if |value| > 0 && value[0] == '-' then SortKey(value[1..], true)
    else SortKey(value, false)
  }

  /** The split as the handler writes it, reading the first character
      without a length check: None is the index-out-of-range panic. */
  function SortKeyAsWritten(value: string): (r: Option<SortKey>)
    ensures r.None? <==> value == []
    ensures r.Some? ==> r.value == SplitSortValue(value)
  {
    if |value| == 0 then None
    else if value[0] == '-' then Some(SortKey(value[1..], true))
    else Some(SortKey(value, false))
  }

  /** A request with an empty sort_by value (`?sort_by=`) reaches the panic. */
  lemma EmptySortValuePanics()
    ensures SortKeyAsWritten([]) == None
    ensures SplitSortValue([]) == SortKey([], false)
  {
  }

  /** Splitting undoes writing, except for an ascending column that itself
      starts with '-', which reads back as descending. */
  lemma SplitSortValueOfSortValue(k: SortKey)
    ensures SplitSortValue(SortValue(k)) == k <==> k.descending || k.column == [] || k.column[0] != '-'
  {
    if k.descending {
      assert ("-" + k.column)[1..] == k.column;
    }
  }

  /** The ORDER BY term for one key. */
  function OrderTerm(k: SortKey): string
  {
    if k.descending then k.column + " desc" else k.column
  }

  /** The ORDER BY terms for the sort_by values, in request order. */
  function OrderTerms(values: seq<string>): seq<string>
  {
    seq(|values|, i requires 0 <= i < |values| => OrderTerm(SplitSortValue(values[i])))
  }

  /** Every sort_by value names a sortable column. */
  predicate AllSortable(values: seq<string>, isSortable: string -> bool) {
    forall i :: 0 <= i < |values| ==> isSortable(SplitSortValue(values[i]).column)
  }

  /** The sort-order loop of the list handler: the ORDER BY terms in request
      order when every column is sortable, and 400 (not sortable) at the
      first one that is not. */
  method ParseSortOrder(values: seq<string>, isSortable: string -> bool) returns (r: Result<seq<string>, Reply>)
    ensures r.Ok? <==> AllSortable(values, isSortable)
    ensures r.Err? ==> r.error == ErrorReply(StatusBadRequest, NotSortable)
    ensures r.Ok? ==> |r.value| == |values|
    ensures r.Ok? ==> forall i :: 0 <= i < |values| ==> r.value[i] == OrderTerm(SplitSortValue(values[i]))
  {
    var order: seq<string> := [];
    var i := 0;
    while i < |values|
      invariant 0 <= i <= |values|
      invariant |order| == i
      invariant forall j :: 0 <= j < i ==> isSortable(SplitSortValue(values[j]).column)
      invariant forall j :: 0 <= j < i ==> order[j] == OrderTerm(SplitSortValue(values[j]))
    {
      var column := values[i];
      var descending := false;
      if |column| > 0 && column[0] == '-' {
        descending := true;
        column := column[1..];
      }
      if !isSortable(column) {
        return Err(ErrorReply(StatusBadRequest, NotSortable));
      }
      if descending {
        order := order + [column + " desc"];
      } else {
        order := order + [column];
      }
      i := i + 1;
    }
    return Ok(order);
  }

  /** The ORDER BY clause handed to the store: order terms joined by ", ",
      empty exactly when no sort was asked for, or only an ascending sort on
      the empty column. */
  lemma OrderClauseEmpty(values: seq<string>)
    ensures Join(OrderTerms(values), ", ") == "" <==> values == [] || values == [""]
  {
    var terms := OrderTerms(values);
    JoinEmpty(terms, ", ");
    if |values| == 1 && terms == [""] {
      var k := SplitSortValue(values[0]);
      assert |OrderTerm(k)| == 0;
    }
  }

  /** Adding one more sort_by value adds its term at the end of the clause. */
  lemma OrderClauseSnoc(values: seq<string>, value: string)
    requires values != []
    ensures Join(OrderTerms(values + [value]), ", ")
         == Join(OrderTerms(values), ", ") + ", " + OrderTerm(SplitSortValue(value))
  {
    assert OrderTerms(values + [value]) == OrderTerms(values) + [OrderTerm(SplitSortValue(value))];
    JoinSnoc(OrderTerms(values), OrderTerm(SplitSortValue(value)), ", ");
  }

  // ---------------------------------------------------------------------
  // Handlers

  /** The store query the list handler issues on success. */
  datatype ListQuery = ListQuery(user: UserId, order: string, filters: Filters)

  /** The list handler up to its store call: the sort order first, then the
      parsed filters (`parsed` is None when the query string does not parse),
      then their check. On success it returns the query it hands to the
      store: the joined ORDER BY terms and the annotated filters. */
  method ListSavedQueries(user: UserId, sortBy: seq<string>, isSortable: string -> bool,
                          parsed: Option<Filters>,
                          validPredicates: string -> Option<seq<string>>, isString: string -> bool)
    returns (r: Result<ListQuery, Reply>)
    ensures r.Err? ==> r.error.ErrorReply? && r.error.status == StatusBadRequest
    ensures !AllSortable(sortBy, isSortable) ==> r == Err(ErrorReply(StatusBadRequest, NotSortable))
    ensures AllSortable(sortBy, isSortable) && parsed.None? ==> r == Err(ErrorReply(StatusBadRequest, BadQueryParameterFilters))
    ensures r.Err? && r.error.ErrorReply? && r.error.detail.Refused? ==>
              parsed.Some? && Explains(parsed.value, validPredicates, r.error.detail.refusal)
    ensures r.Err? && r.error.ErrorReply? ==>
              r.error.detail == NotSortable || r.error.detail == BadQueryParameterFilters || r.error.detail.Refused?
    ensures r.Ok? <==> AllSortable(sortBy, isSortable) && parsed.Some? && Accepted(parsed.value, validPredicates)
    ensures r.Ok? ==> r.value == ListQuery(user, Join(OrderTerms(sortBy), ", "), Annotated(parsed.value, isString))
  {
    var order := ParseSortOrder(sortBy, isSortable);
    if order.Err? {
      return Err(order.error);
    }
    assert order.value == OrderTerms(sortBy);
    if parsed.None? {
      return Err(ErrorReply(StatusBadRequest, BadQueryParameterFilters));
    }
    var filterSet := new QueryFilterSet(parsed.value);
    var checked := filterSet.Validate(validPredicates, isString);
    if checked.Err? {
      return Err(ErrorReply(StatusBadRequest, Refused(checked.error)));
    }
    return Ok(ListQuery(user, Join(order.value, ", "), filterSet.filters));
  }

  /** The body of a create request. */
  datatype CreateRequest = CreateRequest(query: string, name: string)

  /** The create handler. `request` is the decoded body, or the decoder's
      error text; `insert` is the store's answer to an insert: the new row,
      or the error's text. */
  function CreateSavedQuery(user: UserId, request: Result<CreateRequest, string>,
                            insert: (UserId, string, string) -> Result<SavedQuery, string>): (r: Outcome)
    ensures r.reply.Status() in {StatusCreated, StatusBadRequest, StatusInternalServerError}
    ensures r.calls == [] || (request.Ok? && r.calls == [Insert(user, request.value.name, request.value.query)])
    ensures r.calls != [] <==> request.Ok? && request.value.name != "" && request.value.query != ""
    ensures r.calls == [] ==> r.reply.ErrorReply? && r.reply.status == StatusBadRequest
  {
    match request
    case Err(message) => Outcome(ErrorReply(StatusBadRequest, Message(message)), [])
    case Ok(req) =>
      if req.name == "" || req.query == "" then
        Outcome(ErrorReply(StatusBadRequest, EmptyNameOrQuery), [])
      else
        var calls := [Insert(user, req.name, req.query)];
        match insert(user, req.name, req.query)
        case Ok(saved) => Outcome(Created(saved), calls)
        case Err(message) =>
          if Contains(message, UniqueViolation) then
            Outcome(ErrorReply(StatusBadRequest, DuplicateName), calls)
          else
            Outcome(ErrorReply(StatusInternalServerError, Message(message)), calls)
  }

  /** Once the body is valid, the store's answer decides: 201 with the new
      row, 400 for a unique-constraint failure, 500 for any other failure. */
  lemma CreateStatus(user: UserId, req: CreateRequest,
                     insert: (UserId, string, string) -> Result<SavedQuery, string>)
    requires req.name != "" && req.query != ""
    ensures var r := CreateSavedQuery(user, Ok(req), insert);
            var stored := insert(user, req.name, req.query);
            (r.reply.Created? <==> stored.Ok?)
            && (r.reply.Created? ==> r.reply.saved == stored.value)
            && (r.reply.Status() == StatusBadRequest <==> stored.Err? && Contains(stored.error, UniqueViolation))
            && (r.reply.Status() == StatusInternalServerError <==> stored.Err? && !Contains(stored.error, UniqueViolation))
  {
  }

  /** A unique-constraint failure, whatever the driver wraps around it, is
      a 400 asking for another name; it is never a 500. */
  lemma CreateDuplicateName(user: UserId, req: CreateRequest,
                            insert: (UserId, string, string) -> Result<SavedQuery, string>,
                            prefix: string, suffix: string)
    requires req.name != "" && req.query != ""
    requires insert(user, req.name, req.query) == Err(prefix + UniqueViolation + suffix)
    ensures CreateSavedQuery(user, Ok(req), insert).reply
         == ErrorReply(StatusBadRequest, DuplicateName)
    ensures DetailText(CreateSavedQuery(user, Ok(req), insert).reply.detail)
         == Some("duplicate name for saved query: please choose a different name")
  {
    ContainsSpliced(prefix, UniqueViolation, suffix);
  }

  /** The delete handler. `rawId` is the path variable; `belongsToUser`
      and `remove` are the store's answers to the ownership check and to the
      removal. */
  function DeleteSavedQuery(user: UserId, rawId: string,
                            belongsToUser: (UserId, int) -> Result<bool, StoreError>,
                            remove: int -> Option<StoreError>): (r: Outcome)
    ensures r.reply.Status() in {StatusNoContent, StatusBadRequest, StatusNotFound, StatusInternalServerError}
    ensures Atoi(rawId).None? ==> r == Outcome(ErrorReply(StatusBadRequest, IdMalformed), [])
    ensures Atoi(rawId).Some? ==> |r.calls| >= 1 && r.calls[0] == CheckOwner(user, Atoi(rawId).value)
    ensures r.reply == NoContent <==>
              Atoi(rawId).Some? && belongsToUser(user, Atoi(rawId).value) == Ok(true) && remove(Atoi(rawId).value).None?
  {
    match Atoi(rawId)
    case None => Outcome(ErrorReply(StatusBadRequest, IdMalformed), [])
    case Some(id) =>
      var checked := [CheckOwner(user, id)];
      match belongsToUser(user, id)
      case Err(NotFound) => Outcome(ErrorReply(StatusNotFound, QueryDoesNotExist), checked)
      case Err(Failure(_)) => Outcome(ErrorReply(StatusInternalServerError, InternalServerError), checked)
      case Ok(false) => Outcome(ErrorReply(StatusBadRequest, NotOwner), checked)
      case Ok(true) =>
        var calls := checked + [Remove(id)];
        match remove(id)
        case Some(NotFound) => Outcome(ErrorReply(StatusNotFound, QueryDoesNotExist), calls)
        case Some(Failure(_)) => Outcome(ErrorReply(StatusInternalServerError, InternalServerError), calls)
        case None => Outcome(NoContent, calls)
  }

  /** A saved query is removed only after the store confirmed, in an
      earlier call of the same request, that it belongs to the requester,
      and it is the query the request named. */
  lemma DeleteOnlyOwnQueries(user: UserId, rawId: string,
                             belongsToUser: (UserId, int) -> Result<bool, StoreError>,
                             remove: int -> Option<StoreError>, k: int)
    requires 0 <= k < |DeleteSavedQuery(user, rawId, belongsToUser, remove).calls|
    requires DeleteSavedQuery(user, rawId, belongsToUser, remove).calls[k].Remove?
    ensures Atoi(rawId) == Some(DeleteSavedQuery(user, rawId, belongsToUser, remove).calls[k].id)
    ensures exists p :: 0 <= p < k
              && DeleteSavedQuery(user, rawId, belongsToUser, remove).calls[p]
                 == CheckOwner(user, DeleteSavedQuery(user, rawId, belongsToUser, remove).calls[k].id)
    ensures belongsToUser(user, DeleteSavedQuery(user, rawId, belongsToUser, remove).calls[k].id) == Ok(true)
  {
    var calls := DeleteSavedQuery(user, rawId, belongsToUser, remove).calls;
    assert k == 1 && calls[0] == CheckOwner(user, calls[1].id);
  }

  /** The status of a delete of a well-formed id: 404 when the query is
      missing at either store call, 400 for another user's query, 500 for
      any other store failure, 204 otherwise. */
  lemma DeleteStatus(user: UserId, rawId: string, id: int,
                     belongsToUser: (UserId, int) -> Result<bool, StoreError>,
                     remove: int -> Option<StoreError>)
    requires Atoi(rawId) == Some(id)
    ensures var status := DeleteSavedQuery(user, rawId, belongsToUser, remove).reply.Status();
            (status == StatusNotFound <==>
               belongsToUser(user, id) == Err(NotFound) || (belongsToUser(user, id) == Ok(true) && remove(id) == Some(NotFound)))
            && (status == StatusBadRequest <==> belongsToUser(user, id) == Ok(false))
            && (status == StatusInternalServerError <==>
               (belongsToUser(user, id).Err? && belongsToUser(user, id).error.Failure?)
               || (belongsToUser(user, id) == Ok(true) && remove(id).Some? && remove(id).value.Failure?))
  {
  }

  /** Every id the store hands out can be deleted by its owner when the
      store removes it. */
  lemma DeleteOwnQuery(q: SavedQuery,
                       belongsToUser: (UserId, int) -> Result<bool, StoreError>,
                       remove: int -> Option<StoreError>)
    requires MinInt <= q.id <= MaxInt
    requires belongsToUser(q.user, q.id) == Ok(true) && remove(q.id).None?
    ensures DeleteSavedQuery(q.user, Itoa(q.id), belongsToUser, remove)
         == Outcome(NoContent, [CheckOwner(q.user, q.id), Remove(q.id)])
  {
    AtoiItoa(q.id);
  }
}
