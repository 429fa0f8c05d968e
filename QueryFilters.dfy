/** The column-filter check of the saved-query list handler: every
    filtered column must accept filtering, with the operators used on it,
    and each filter learns whether its column holds text. */
module QueryFilters {
  import opened Wrappers

  /** Why a set of filters is refused; either way the answer is a 400. */
  datatype Refusal =
    | ColumnNotFilterable(column: string)
    | FilterPredicateNotSupported(name: string, operator: string)

  /** One parsed column filter: `name operator value`, and whether the
      column holds text. */
  datatype QueryFilter = QueryFilter(name: string, operator: string, value: string, isStringData: bool)

  /** The filters, keyed by column. */
  type Filters = map<string, seq<QueryFilter>>

  /** A filter with its text flag set from the column metadata. */
  function Annotate(f: QueryFilter, isString: string -> bool): QueryFilter {
    f.(isStringData := isString(f.name))
  }

  /** Every filter annotated, in place. */
  ghost function Annotated(m: Filters, isString: string -> bool): Filters {
    map c | c in m :: seq(|m[c]|, j requires 0 <= j < |m[c]| => Annotate(m[c][j], isString))
  }

  /** A filter with its text flag cleared: what annotation does not touch. */
  function Unflagged(f: QueryFilter): QueryFilter {
    f.(isStringData := false)
  }

  /** `a` and `b` hold the same filters under the same columns, text flags aside. */
  ghost predicate SameExceptFlags(a: Filters, b: Filters) {
    a.Keys == b.Keys
    && (forall c :: c in a ==> |a[c]| == |b[c]|)
    && (forall c, j :: c in a && 0 <= j < |a[c]| ==> Unflagged(a[c][j]) == Unflagged(b[c][j]))
  }

  /** The column accepts filtering, and with every operator used on it. */
  predicate ColumnAccepted(column: string, fs: seq<QueryFilter>, validPredicates: string -> Option<seq<string>>) {
    validPredicates(column).Some?
    && forall j :: 0 <= j < |fs| ==> fs[j].operator in validPredicates(column).value
  }

  /** Every filtered column is accepted. */
  ghost predicate Accepted(m: Filters, validPredicates: string -> Option<seq<string>>) {
    forall c :: c in m ==> ColumnAccepted(c, m[c], validPredicates)
  }

  /** `d` names a real reason to refuse `m`: a filtered column that cannot
      be filtered, or a filter whose operator its column does not support. */
  ghost predicate Explains(m: Filters, validPredicates: string -> Option<seq<string>>, d: Refusal) {
    match d
    case ColumnNotFilterable(c) => c in m && validPredicates(c).None?
    case FilterPredicateNotSupported(name, op) =>
      exists c, j :: c in m && 0 <= j < |m[c]| && validPredicates(c).Some?
        && m[c][j].name == name && m[c][j].operator == op && op !in validPredicates(c).value
  }

  /** `now` is `orig` with its first `n` filters annotated and the rest as they were. */
  predicate AnnotatedUpTo(orig: seq<QueryFilter>, now: seq<QueryFilter>, n: int, isString: string -> bool) {
    |now| == |orig| && 0 <= n <= |orig|
    && (forall j :: 0 <= j < n ==> now[j] == Annotate(orig[j], isString))
    && (forall j :: n <= j < |orig| ==> now[j] == orig[j])
  }

  /** `now` is `orig` with the columns in `done` fully annotated and the
      others untouched. */
  ghost predicate AnnotatedColumns(orig: Filters, now: Filters, done: set<string>, isString: string -> bool) {
    now.Keys == orig.Keys
    && forall c :: c in orig ==> AnnotatedUpTo(orig[c], now[c], if c in done then |orig[c]| else 0, isString)
  }

  /** Part way through one more column, only text flags have changed. */
  lemma PartlyAnnotatedSame(orig: Filters, now: Filters, done: set<string>, name: string,
                            column: seq<QueryFilter>, n: int, isString: string -> bool)
    requires AnnotatedColumns(orig, now, done, isString)
    requires name in orig && AnnotatedUpTo(orig[name], column, n, isString)
    ensures SameExceptFlags(orig, now[name := column])
  {
    var m := now[name := column];
    forall c, j | c in orig && 0 <= j < |orig[c]|
      ensures Unflagged(orig[c][j]) == Unflagged(m[c][j])
    {
    }
  }

  /** Finishing a column adds it to the annotated ones. */
  lemma ColumnAnnotated(orig: Filters, now: Filters, done: set<string>, name: string,
                        column: seq<QueryFilter>, isString: string -> bool)
    requires AnnotatedColumns(orig, now, done, isString)
    requires name in orig && name !in done && AnnotatedUpTo(orig[name], column, |column|, isString)
    ensures AnnotatedColumns(orig, now[name := column], done + {name}, isString)
  {
  }

  /** With every column annotated, the filters are the annotated original. */
  lemma AllColumnsAnnotated(orig: Filters, now: Filters, isString: string -> bool)
    requires AnnotatedColumns(orig, now, orig.Keys, isString)
    ensures now == Annotated(orig, isString)
    ensures SameExceptFlags(orig, now)
  {
    var a := Annotated(orig, isString);
    forall c | c in orig
      ensures now[c] == a[c]
    {
      assert |now[c]| == |a[c]|;
    }
  }

  /** An operator its column does not support explains a refusal. */
  lemma UnsupportedExplained(m: Filters, validPredicates: string -> Option<seq<string>>, c: string, j: int)
    requires c in m && 0 <= j < |m[c]| && validPredicates(c).Some?
    requires m[c][j].operator !in validPredicates(c).value
    ensures Explains(m, validPredicates, FilterPredicateNotSupported(m[c][j].name, m[c][j].operator))
  {
  }

  /** Whatever explains a refusal makes the filters not accepted. */
  lemma RefusalExplained(m: Filters, validPredicates: string -> Option<seq<string>>, d: Refusal)
    requires Explains(m, validPredicates, d)
    ensures !Accepted(m, validPredicates)
  {
    if d.FilterPredicateNotSupported? {
      var c, j :| c in m && 0 <= j < |m[c]| && validPredicates(c).Some?
        && m[c][j].name == d.name && m[c][j].operator == d.operator && d.operator !in validPredicates(c).value;
      assert !ColumnAccepted(c, m[c], validPredicates);
    }
  }

  /** The parsed filters of one list request, which the handler checks and
      annotates in place. */
  class QueryFilterSet {
    var filters: Filters

    constructor(filters: Filters)
      ensures this.filters == filters
    {
      this.filters := filters;
    }

    /** The filters of column `name` in turn: each must use an operator in
        `validPredicates`, and gets its text flag from `isString` of its
        name. Stops at the first unsupported operator, returning that filter,
        with the filters before it (`stop` of them) annotated. */
    method AnnotateColumn(name: string, validPredicates: seq<string>, isString: string -> bool)
      returns (unsupported: Option<QueryFilter>, ghost stop: int)
      requires name in filters
      modifies this
      ensures name in filters && filters == old(filters)[name := filters[name]]
      ensures AnnotatedUpTo(old(filters)[name], filters[name], stop, isString)
      ensures forall j :: 0 <= j < stop ==> old(filters)[name][j].operator in validPredicates
      ensures unsupported.None? ==> stop == |old(filters)[name]|
      ensures unsupported.Some? ==> stop < |old(filters)[name]| && unsupported.value == old(filters)[name][stop]
                                    && unsupported.value.operator !in validPredicates
    {
      var fs := filters[name];
      ghost var before := filters;
      var column := fs;
      for i := 0 to |fs|
        invariant filters == before[name := column]
        invariant AnnotatedUpTo(fs, column, i, isString)
        invariant forall j :: 0 <= j < i ==> fs[j].operator in validPredicates
      {
        var filter := fs[i];
        if filter.operator !in validPredicates {
          return Some(filter), i;
        }
        column := column[i := filter.(isStringData := isString(filter.name))];
        filters := filters[name := column];
      }
      return None, |fs|;
    }

    /** One step of the filter check, for the column `name`: 400 when the
        column cannot be filtered; otherwise each of its filters in turn
        must use an operator the column supports, and gets its text flag
        from `isString` of its name, up to the first that does not.
        `original` and `done` are the filters before the check and the
        columns it has finished. */
    method CheckColumn(name: string, validPredicates: string -> Option<seq<string>>, isString: string -> bool,
                       ghost original: Filters, ghost done: set<string>)
      returns (r: Option<Refusal>)
      requires name in original && name !in done
      requires AnnotatedColumns(original, filters, done, isString)
      modifies this
      ensures r.None? ==> AnnotatedColumns(original, filters, done + {name}, isString)
      ensures r.None? <==> ColumnAccepted(name, original[name], validPredicates)
      ensures r.Some? ==> SameExceptFlags(original, filters) && Explains(original, validPredicates, r.value)
      ensures r.Some? ==> r.value == ColumnNotFilterable(name)
                          || (exists f :: f in original[name] && r.value == FilterPredicateNotSupported(f.name, f.operator))
    {
      var validPredicate := validPredicates(name);
      if validPredicate.None? {
        PartlyAnnotatedSame(original, filters, done, name, filters[name], 0, isString);
        assert filters[name := filters[name]] == filters;
        return Some(ColumnNotFilterable(name));
      }
      ghost var before := filters;
      var unsupported, stop := AnnotateColumn(name, validPredicate.value, isString);
      if unsupported.Some? {
        PartlyAnnotatedSame(original, before, done, name, filters[name], stop, isString);
        UnsupportedExplained(original, validPredicates, name, stop);
        assert original[name][stop] == unsupported.value && unsupported.value in original[name];
        return Some(FilterPredicateNotSupported(unsupported.value.name, unsupported.value.operator));
      }
      ColumnAnnotated(original, before, done, name, filters[name], isString);
      return None;
    }

    /** The filter check of the list handler, visiting the columns in any
        order: 400 for a column that cannot be filtered (`validPredicates`
        gives None) or an operator it does not support; otherwise every
        filter gets its text flag from `isString` of its name. Only text
        flags ever change, even on a refusal. */
    method Validate(validPredicates: string -> Option<seq<string>>, isString: string -> bool) returns (r: Result<(), Refusal>)
      modifies this
      ensures r.Ok? <==> Accepted(old(filters), validPredicates)
      ensures r.Ok? ==> filters == Annotated(old(filters), isString)
      ensures r.Err? ==> Explains(old(filters), validPredicates, r.error)
      ensures SameExceptFlags(old(filters), filters)
    {
      ghost var original := filters;
      ghost var done: set<string> := {};
      var remaining := filters.Keys;
      while remaining != {}
        invariant done == original.Keys - remaining && remaining <= original.Keys
        invariant AnnotatedColumns(original, filters, done, isString)
        invariant forall c :: c in done ==> ColumnAccepted(c, original[c], validPredicates)
        decreases remaining
      {
        var name :| name in remaining;
        var refusal := CheckColumn(name, validPredicates, isString, original, done);
        if refusal.Some? {
          RefusalExplained(original, validPredicates, refusal.value);
          return Err(refusal.value);
        }
        remaining := remaining - {name};
        done := done + {name};
      }
      AllColumnsAnnotated(original, filters, isString);
      return Ok(());
    }
  }

  /** Annotation keeps the filters, and sets each text flag from its name. */
  lemma AnnotatedShape(m: Filters, isString: string -> bool)
    ensures SameExceptFlags(m, Annotated(m, isString))
    ensures forall c, j :: c in m && 0 <= j < |m[c]| ==> Annotated(m, isString)[c][j].isStringData == isString(m[c][j].name)
  {
  }

  /** Annotating twice is annotating once. */
  lemma AnnotatedIdempotent(m: Filters, isString: string -> bool)
    ensures Annotated(Annotated(m, isString), isString) == Annotated(m, isString)
  {
    var a := Annotated(m, isString);
    var aa := Annotated(a, isString);
    forall c | c in a
      ensures aa[c] == a[c]
    {
      assert |aa[c]| == |a[c]|;
    }
  }

  /** Whether filters are accepted does not depend on their text flags, so
      checking an accepted, annotated set again accepts it again. */
  lemma AcceptedIgnoresFlags(a: Filters, b: Filters, validPredicates: string -> Option<seq<string>>)
    requires SameExceptFlags(a, b)
    ensures Accepted(a, validPredicates) <==> Accepted(b, validPredicates)
  {
    forall c, j | c in a && 0 <= j < |a[c]|
      ensures a[c][j].operator == b[c][j].operator
    {
      assert Unflagged(a[c][j]) == Unflagged(b[c][j]);
    }
  }

  /** A refusal of `m` always has a reason, and only a set that is not
      accepted has one. */
  lemma ExplainedIffRefused(m: Filters, validPredicates: string -> Option<seq<string>>)
    ensures !Accepted(m, validPredicates) <==> exists d :: Explains(m, validPredicates, d)
  {
    if !Accepted(m, validPredicates) {
      var c :| c in m && !ColumnAccepted(c, m[c], validPredicates);
      if validPredicates(c).None? {
        assert Explains(m, validPredicates, ColumnNotFilterable(c));
      } else {
        var j :| 0 <= j < |m[c]| && m[c][j].operator !in validPredicates(c).value;
        assert Explains(m, validPredicates, FilterPredicateNotSupported(m[c][j].name, m[c][j].operator));
      }
    }
  }
}
