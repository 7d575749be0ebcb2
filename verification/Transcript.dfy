/** sortTranscript of internal/corequery/session.go. */
module Transcript {
  import opened Text
  import opened Sorting

  /** `rest` stands for the fields that the sort does not look at. */
  datatype Entry = Entry(id: string, createdAt: string, rest: string)

  /** By creation text, then by id; both compared as texts. */
  const BY_TIME: Order<Entry> := (a: Entry, b: Entry) =>
    Less(a.createdAt, b.createdAt) || (a.createdAt == b.createdAt && !Less(b.id, a.id))

  lemma {:induction false} ByTimeIsTotal()
    ensures TotalOrder(BY_TIME)
  {
    hide Less;
    forall a, b
      ensures BY_TIME(a, b) || BY_TIME(b, a)
    {
      LessTotal(a.createdAt, b.createdAt);
      LessAsymmetric(a.id, b.id);
    }
    forall a, b, c | BY_TIME(a, b) && BY_TIME(b, c)
      ensures BY_TIME(a, c)
    {
      ByTimeIsTransitive(a, b, c);
    }
  }

  lemma {:induction false} ByTimeIsTransitive(a: Entry, b: Entry, c: Entry)
    requires BY_TIME(a, b) && BY_TIME(b, c)
    ensures BY_TIME(a, c)
  {
    hide Less;
    TextOrderIsTotal();
    if Less(a.createdAt, b.createdAt) && Less(b.createdAt, c.createdAt) {
      LessTransitive(a.createdAt, b.createdAt, c.createdAt);
    }
    assert !Less(b.id, a.id) && !Less(c.id, b.id) ==> TEXT_ORDER(a.id, b.id) && TEXT_ORDER(b.id, c.id);
  }

  /** The entries that share creation text and id with x. */
  function WithKey(x: Entry): Entry -> bool {
    (e: Entry) => e.createdAt == x.createdAt && e.id == x.id
  }

  method SortTranscript(items: array<Entry>)
    modifies items
    ensures Ordered(BY_TIME, items[..])
    ensures multiset(items[..]) == multiset(old(items[..]))
    ensures forall x: Entry :: Filter(WithKey(x), items[..])
                            == Filter(WithKey(x), old(items[..]))
  {
    ghost var was := items[..];
    InsertionSort(BY_TIME, items);
    ByTimeIsTotal();
    SortOrders(BY_TIME, was);
    SortPermutes(BY_TIME, was);
    forall x: Entry
      ensures Filter(WithKey(x), items[..])
           == Filter(WithKey(x), was)
    {
      KeyIsStable(was, x);
    }
  }

  /** Sorting keeps the entries of one key as they came. */
  lemma {:induction false} KeyIsStable(s: seq<Entry>, x: Entry)
    ensures Filter(WithKey(x), Sort(BY_TIME, s))
         == Filter(WithKey(x), s)
  {
    LessAsymmetric(x.id, x.id);
    SortIsStable(BY_TIME, s, WithKey(x));
  }
}
