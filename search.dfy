/** The search boxes of the list pages: a record is listed when one of its text
    fields contains the search term, both compared in lower case. */
module Search {
  import opened Common
  import opened Seqs
  import opened Text

  /** `field?.toLowerCase().includes(term.toLowerCase())`: an absent field never
      matches. `lower` is `String.prototype.toLowerCase`. */
  predicate FieldMatches(field: Option<string>, term: string, lower: string -> string)
  {
    field.Some? && Contains(lower(field.value), lower(term))
  }

  /** The `||` of the field tests, left to right. */
  predicate AnyField(fields: seq<Option<string>>, term: string, lower: string -> string)
  {
    fields != [] && (FieldMatches(fields[0], term, lower) || AnyField(fields[1..], term, lower))
  }

  /** The disjunction holds exactly when some field matches. */
  lemma {:induction false} AnyFieldIff(fields: seq<Option<string>>, term: string, lower: string -> string)
    ensures AnyField(fields, term, lower) <==> exists i :: 0 <= i < |fields| && FieldMatches(fields[i], term, lower)
  {
    if fields != [] {
      AnyFieldIff(fields[1..], term, lower);
      if !FieldMatches(fields[0], term, lower) && !AnyField(fields[1..], term, lower) {
        forall i | 0 <= i < |fields|
          ensures !FieldMatches(fields[i], term, lower)
        {
          if i > 0 {
            assert fields[1..][i - 1] == fields[i];
          }
        }
      }
    }
  }

  lemma AnyFieldTwo(a: Option<string>, b: Option<string>, term: string, lower: string -> string)
    ensures AnyField([a, b], term, lower) <==> FieldMatches(a, term, lower) || FieldMatches(b, term, lower)
  {
    assert [a, b][1..] == [b];
    assert [b][1..] == [];
    assert !AnyField([], term, lower);
    assert AnyField([b], term, lower) <==> FieldMatches(b, term, lower);
  }

  lemma AnyFieldThree(a: Option<string>, b: Option<string>, c: Option<string>, term: string, lower: string -> string)
    ensures AnyField([a, b, c], term, lower) <==>
      FieldMatches(a, term, lower) || FieldMatches(b, term, lower) || FieldMatches(c, term, lower)
  {
    assert [a, b, c][1..] == [b, c];
    AnyFieldTwo(b, c, term, lower);
  }

  function Hits<T>(fields: T -> seq<Option<string>>, term: string, lower: string -> string): T -> bool
  {
    (x: T) => AnyField(fields(x), term, lower)
  }

  /** `records.filter(r => <field tests>)`. */
  function Search<T>(xs: seq<T>, fields: T -> seq<Option<string>>, term: string, lower: string -> string): seq<T>
  {
    Keep(xs, Hits(fields, term, lower))
  }

  /** A record is listed exactly when it is loaded and one of its fields matches
      the term; an empty lowered term lists everything, in the loaded order,
      provided the first field is always present. */
  lemma SearchShows<T>(xs: seq<T>, fields: T -> seq<Option<string>>, term: string, lower: string -> string, x: T)
    ensures x in Search(xs, fields, term, lower) <==> x in xs && AnyField(fields(x), term, lower)
    ensures lower(term) == "" && (forall i :: 0 <= i < |xs| ==> fields(xs[i]) != [] && fields(xs[i])[0].Some?) ==>
      Search(xs, fields, term, lower) == xs
  {
    KeepContains(xs, Hits(fields, term, lower), x);
    if lower(term) == "" && (forall i :: 0 <= i < |xs| ==> fields(xs[i]) != [] && fields(xs[i])[0].Some?) {
      forall i | 0 <= i < |xs|
        ensures Hits(fields, term, lower)(xs[i])
      {
        assert "" <= lower(fields(xs[i])[0].value);
      }
      KeepAll(xs, Hits(fields, term, lower));
    }
  }
}
