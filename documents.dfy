/** Property documents as the listing sees them, and what it means for a
    document to match an exact-match filter. */
module Documents {

  /** A stored property: its string-valued fields by name (the collection
      has no schema, so any field may be missing) and its posting date. */
  datatype Property = Property(fields: map<string, string>, postedDate: int)

  /** Exact-match semantics of a filter document: every entry of the filter
      names a field the document holds, with exactly that value. */
  predicate Matches(p: Property, filter: map<string, string>)
    ensures filter == map[] ==> Matches(p, filter)
    ensures Matches(p, filter) ==> filter.Keys <= p.fields.Keys
  {
    forall field :: field in filter ==> field in p.fields && p.fields[field] == filter[field]
  }

  /** Matching is being a sub-map: every (field, value) pair of the filter is
      a pair of the document. */
  lemma MatchesIsSubMap(p: Property, filter: map<string, string>)
    ensures Matches(p, filter) <==> filter.Items <= p.fields.Items
  {
    if Matches(p, filter) {
      forall item | item in filter.Items
        ensures item in p.fields.Items
      {
        assert item.0 in filter && filter[item.0] == item.1;
      }
    }
    if filter.Items <= p.fields.Items {
      forall field | field in filter
        ensures field in p.fields && p.fields[field] == filter[field]
      {
        assert (field, filter[field]) in filter.Items;
        assert (field, filter[field]) in p.fields.Items;
      }
    }
  }
}
