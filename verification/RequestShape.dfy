/** Repair never looks at what a tool result says: histories that differ only there
    have repairs that differ only there. */
module RequestShape {
  import opened Sequences
  import opened Wrappers
  import opened ChatMessages
  import opened RepairPasses
  import opened RepairLemmas
  import opened CompactionSpec

  predicate AlikeMessage(a: Message, b: Message) {
    if a.role.Tool? then b == a.(content := b.content) else b == a
  }

  predicate Alike(a: seq<Message>, b: seq<Message>) {
    |a| == |b| && (a == [] || (Alike(Init(a), Init(b)) && AlikeMessage(Last(a), Last(b))))
  }

  lemma {:induction false} SameShapeIsAlike(a: seq<Message>, b: seq<Message>)
    ensures SameShape(a, b) <==> Alike(a, b)
  {
    if |a| == |b| && a != [] {
      SameShapeIsAlike(Init(a), Init(b));
      if Alike(a, b) {
        assert forall i | 0 <= i < |a| - 1 :: Init(a)[i] == a[i] && Init(b)[i] == b[i];
      }
      if SameShape(a, b) {
        assert forall i | 0 <= i < |a| - 1 :: Init(a)[i] == a[i] && Init(b)[i] == b[i];
      }
    }
  }

  lemma {:induction false} AlikeSnoc(a: seq<Message>, b: seq<Message>, x: Message, y: Message)
    ensures Alike(a + [x], b + [y]) <==> Alike(a, b) && AlikeMessage(x, y)
  {
    InitSnoc(a, x);
    InitSnoc(b, y);
  }

  lemma {:induction false} ConcatSplit<T>(a: seq<T>, c: seq<T>)
    requires c != []
    ensures a + c == (a + Init(c)) + [Last(c)]
  {
  }

  lemma {:induction false} AlikeConcat(a: seq<Message>, b: seq<Message>, c: seq<Message>, d: seq<Message>)
    requires Alike(a, b) && Alike(c, d)
    ensures Alike(a + c, b + d)
  {
    if c == [] {
      assert a + c == a && b + d == b;
    } else {
      AlikeConcat(a, b, Init(c), Init(d));
      AlikeSnoc(a + Init(c), b + Init(d), Last(c), Last(d));
      ConcatSplit(a, c);
      ConcatSplit(b, d);
    }
  }

  lemma {:induction false} AlikeRefl(a: seq<Message>)
    ensures Alike(a, a)
  {
    if a != [] { AlikeRefl(Init(a)); }
  }

  /** Alike histories declare and answer the same and are equally well paired. */
  lemma {:induction false} AlikeBags(a: seq<Message>, b: seq<Message>)
    requires Alike(a, b)
    ensures Calls(a) == Calls(b) && Declared(a) == Declared(b) && Answered(a) == Answered(b)
    ensures Bystanders(a) == Bystanders(b)
    ensures ResultsDeclared(a) == ResultsDeclared(b) && NamesValid(a) == NamesValid(b)
  {
    if a != [] { AlikeBags(Init(a), Init(b)); }
  }

  lemma {:induction false} AlikeStripPlaceholders(a: seq<Message>, b: seq<Message>)
    requires Alike(a, b)
    ensures Alike(StripPlaceholders(a), StripPlaceholders(b))
  {
    if a != [] {
      AlikeStripPlaceholders(Init(a), Init(b));
      var p, q := StripPlaceholders(Init(a)), StripPlaceholders(Init(b));
      AlikeSnoc(p, q, Last(a), Last(b));
      InitSnoc(p, Last(a));
      InitSnoc(q, Last(b));
    }
  }

  lemma {:induction false} AlikeStripMalformed(a: seq<Message>, b: seq<Message>)
    requires Alike(a, b)
    ensures Alike(StripMalformed(a), StripMalformed(b))
  {
    if a != [] {
      AlikeStripMalformed(Init(a), Init(b));
      var x, y := WithoutMalformed(Last(a)), WithoutMalformed(Last(b));
      if Last(a).role.Tool? {
        AlikeSnoc([], [], Last(a), Last(b));
        assert [] + [Last(a)] == x && [] + [Last(b)] == y;
      } else {
        AlikeRefl(x);
      }
      AlikeConcat(StripMalformed(Init(a)), StripMalformed(Init(b)), x, y);
    }
  }

  lemma {:induction false} AlikeDropOrphans(a: seq<Message>, b: seq<Message>)
    requires Alike(a, b)
    ensures Alike(DropOrphans(a), DropOrphans(b))
  {
    if a != [] {
      AlikeDropOrphans(Init(a), Init(b));
      var p, q := DropOrphans(Init(a)), DropOrphans(Init(b));
      AlikeBags(Init(a), Init(b));
      AlikeBags(p, q);
      AlikeSnoc(p, q, Last(a), Last(b));
      InitSnoc(p, Last(a));
      InitSnoc(q, Last(b));
    }
  }

  lemma {:induction false} AlikeWeave(a: seq<Message>, b: seq<Message>, extra: seq<seq<Message>>)
    requires Alike(a, b) && |a| == |extra|
    ensures Alike(Weave(a, extra).0, Weave(b, extra).0)
    ensures Weave(a, extra).1 == Weave(b, extra).1
  {
    if a != [] {
      AlikeWeave(Init(a), Init(b), Init(extra));
      var p, q := Weave(Init(a), Init(extra)), Weave(Init(b), Init(extra));
      if Last(a).role.Tool? {
        AlikeSnoc(p.0, q.0, Last(a), Last(b));
      } else {
        AlikeRefl(p.1);
        AlikeConcat(p.0, q.0, p.1, q.1);
        AlikeSnoc(p.0 + p.1, q.0 + q.1, Last(a), Last(b));
      }
    }
  }

  lemma {:induction false} AlikeBackfill(a: seq<Message>, b: seq<Message>)
    requires Alike(a, b)
    ensures Alike(Backfill(a), Backfill(b))
  {
    AlikeBags(a, b);
    SameShapeIsAlike(a, b);
    var extra := Missing(a, Answered(a));
    assert extra == Missing(b, Answered(b));
    AlikeWeave(a, b, extra);
    AlikeRefl(Weave(a, extra).1);
    AlikeConcat(Weave(a, extra).0, Weave(b, extra).0, Weave(a, extra).1, Weave(b, extra).1);
  }

  /** Rewriting tool results commutes with repair. */
  lemma {:induction false} RepairKeepsShape(a: seq<Message>, b: seq<Message>)
    requires SameShape(a, b)
    ensures SameShape(Repair(a), Repair(b))
  {
    SameShapeIsAlike(a, b);
    AlikeStripPlaceholders(a, b);
    AlikeStripMalformed(StripPlaceholders(a), StripPlaceholders(b));
    AlikeDropOrphans(StripMalformed(StripPlaceholders(a)), StripMalformed(StripPlaceholders(b)));
    AlikeBackfill(Cleaned(a), Cleaned(b));
    SameShapeIsAlike(Repair(a), Repair(b));
  }
}
