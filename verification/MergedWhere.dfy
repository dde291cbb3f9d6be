/** Merging two nodes of a pushed-down join: what becomes of the conditions that the right one had. */
module MergedWhere {
  import opened Prelude
  import opened Seqs
  import Rows
  import opened Colocated

  /** What the right node returns under its own conditions `w`. */
  function Filtered(w: Option<Rows.Row> -> bool, ys: seq<Rows.Row>): seq<Rows.Row> {
    FlatMap(KeepRow(w), ys)
  }

  function KeepRow(w: Option<Rows.Row> -> bool): Rows.Row -> seq<Rows.Row> {
    y => if w(Some(y)) then [y] else []
  }

  /** The merged query, which has the conditions of the right node in its own WHERE clause. */
  function Moved(q: Query, w: Option<Rows.Row> -> bool): Query {
    Query(q.on, q.left, (x, y) => if w(y) then q.emit(x, y) else [])
  }

  /** A left row that is padded next to the filtered right side is padded in the merged query, too. */
  predicate KeepsPadding(q: Query, w: Option<Rows.Row> -> bool, x: Rows.Row, ys: seq<Rows.Row>) {
    || !q.left || q.emit(x, None) == []
    || Partnered(q, x, Filtered(w, ys)) != []
    || (w(None) && Partnered(q, x, ys) == [])
  }

  function PartnerFn(q: Query, x: Rows.Row): Rows.Row -> seq<Rows.Row> { y => if q.on(x, y) then [y] else [] }

  function EmitFn(q: Query, x: Rows.Row): Rows.Row -> seq<Rows.Row> { y => q.emit(x, Some(y)) }

  lemma AnswerIs(q: Query, x: Rows.Row, ys: seq<Rows.Row>)
    ensures Partnered(q, x, ys) == FlatMap(PartnerFn(q, x), ys)
    ensures Partnered(q, x, ys) != [] ==> AnswerOne(q, x, ys) == FlatMap(EmitFn(q, x), Partnered(q, x, ys))
  {
    FlatMapAgrees(y => if q.on(x, y) then [y] else [], PartnerFn(q, x), ys);
    FlatMapAgrees(y => q.emit(x, Some(y)), EmitFn(q, x), Partnered(q, x, ys));
  }

  /** The partners among the filtered rows are the filtered partners. */
  lemma PartnersFiltered(q: Query, w: Option<Rows.Row> -> bool, x: Rows.Row, ys: seq<Rows.Row>)
    ensures Partnered(q, x, Filtered(w, ys)) == Filtered(w, Partnered(q, x, ys))
  {
    var partner, keep := PartnerFn(q, x), KeepRow(w);
    AnswerIs(q, x, ys);
    AnswerIs(q, x, Filtered(w, ys));
    forall y ensures FlatMap(partner, keep(y)) == FlatMap(keep, partner(y)) {
      FlatMapOne(partner, y);
      FlatMapOne(keep, y);
    }
    FlatMapTwice(partner, keep, keep, partner, ys);
  }

  /** Filtering the partners of a row or their result rows is the same. */
  lemma {:induction false} EmitsFiltered(q: Query, w: Option<Rows.Row> -> bool, x: Rows.Row, ps: seq<Rows.Row>)
    ensures FlatMap(EmitFn(Moved(q, w), x), ps) == FlatMap(EmitFn(q, x), Filtered(w, ps))
  {
    if ps != [] {
      var n := |ps| - 1;
      EmitsFiltered(q, w, x, ps[..n]);
      FlatMapAppends(EmitFn(q, x), Filtered(w, ps[..n]), KeepRow(w)(ps[n]));
      FlatMapOne(EmitFn(q, x), ps[n]);
    }
  }

  /** One left row: the merged query agrees or returns nothing where a padded row is due. */
  lemma RowMoved(q: Query, w: Option<Rows.Row> -> bool, x: Rows.Row, ys: seq<Rows.Row>)
    ensures var merged, nested := AnswerOne(Moved(q, w), x, ys), AnswerOne(q, x, Filtered(w, ys));
            && |merged| <= |nested|
            && (KeepsPadding(q, w, x, ys) ==> merged == nested)
            && (!KeepsPadding(q, w, x, ys) ==> |merged| < |nested|)
  {
    var ps := Partnered(q, x, ys);
    PartnersFiltered(q, w, x, ys);
    EmitsFiltered(q, w, x, ps);
    AnswerIs(q, x, Filtered(w, ys));
    AnswerIs(Moved(q, w), x, ys);
    SamePartners(q, w, x, ys);
    assert Filtered(w, []) == [] && FlatMap(EmitFn(q, x), []) == [];
  }

  lemma SamePartners(q: Query, w: Option<Rows.Row> -> bool, x: Rows.Row, ys: seq<Rows.Row>)
    ensures Partnered(Moved(q, w), x, ys) == Partnered(q, x, ys)
  {
    var m := Moved(q, w);
    AnswerIs(q, x, ys);
    AnswerIs(m, x, ys);
    forall y ensures PartnerFn(m, x)(y) == PartnerFn(q, x)(y) {
      assert m.on == q.on;
    }
    FlatMapAgrees(PartnerFn(m, x), PartnerFn(q, x), ys);
  }

  /**
    Merging the right node of a join moves its conditions to the WHERE clause of the merged query. That keeps
    the result exactly when every left row that is padded next to the filtered right side still is.
  */
  lemma {:induction false} MovedWhere(q: Query, w: Option<Rows.Row> -> bool, xs: seq<Rows.Row>, ys: seq<Rows.Row>)
    ensures |Answer(Moved(q, w), xs, ys)| <= |Answer(q, xs, Filtered(w, ys))|
    ensures Answer(Moved(q, w), xs, ys) == Answer(q, xs, Filtered(w, ys)) <==>
            forall x | x in xs :: KeepsPadding(q, w, x, ys)
  {
    if xs != [] {
      var n := |xs| - 1;
      MovedWhere(q, w, xs[..n], ys);
      RowMoved(q, w, xs[n], ys);
      assert xs == xs[..n] + [xs[n]];
      SameParts(Answer(Moved(q, w), xs[..n], ys), AnswerOne(Moved(q, w), xs[n], ys),
                Answer(q, xs[..n], Filtered(w, ys)), AnswerOne(q, xs[n], Filtered(w, ys)));
    }
  }

  lemma SameParts<A>(a: seq<A>, b: seq<A>, c: seq<A>, d: seq<A>)
    requires |a| <= |c| && |b| <= |d|
    ensures a + b == c + d <==> a == c && b == d
  {
    if a + b == c + d {
      assert |a + b| == |c + d|;
      assert a == (a + b)[..|a|] && b == (a + b)[|a|..];
    }
  }

  /** Some left row is padded, and the conditions of the right node reject a missing row or a partner of it. */
  ghost predicate LosesPadding(q: Query, w: Option<Rows.Row> -> bool) {
    q.left && exists x :: q.emit(x, None) != [] && (!w(None) || exists y :: q.on(x, y) && !w(Some(y)))
  }

  /** It keeps the result on all tables exactly when the join is inner or the conditions reject nothing that matters. */
  lemma MergeKeepsExactly(q: Query, w: Option<Rows.Row> -> bool)
    ensures (forall xs, ys :: Answer(Moved(q, w), xs, ys) == Answer(q, xs, Filtered(w, ys))) <==> !LosesPadding(q, w)
  {
    if LosesPadding(q, w) {
      var x :| q.emit(x, None) != [] && (!w(None) || exists y :: q.on(x, y) && !w(Some(y)));
      var ys := LosingRows(q, w, x);
      MovedWhere(q, w, [x], ys);
      assert x in [x];
    } else {
      forall xs, ys ensures Answer(Moved(q, w), xs, ys) == Answer(q, xs, Filtered(w, ys)) {
        forall x | x in xs ensures KeepsPadding(q, w, x, ys) {
          PaddingIsKept(q, w, x, ys);
        }
        MovedWhere(q, w, xs, ys);
      }
    }
  }

  lemma LosingRows(q: Query, w: Option<Rows.Row> -> bool, x: Rows.Row) returns (ys: seq<Rows.Row>)
    requires q.left && q.emit(x, None) != [] && (!w(None) || exists y :: q.on(x, y) && !w(Some(y)))
    ensures !KeepsPadding(q, w, x, ys)
  {
    if w(None) {
      var y :| q.on(x, y) && !w(Some(y));
      ys := [y];
      FlatMapOne(KeepRow(w), y);
      FlatMapOne(z => if q.on(x, z) then [z] else [], y);
    } else {
      ys := [];
    }
  }

  lemma PaddingIsKept(q: Query, w: Option<Rows.Row> -> bool, x: Rows.Row, ys: seq<Rows.Row>)
    requires !LosesPadding(q, w)
    ensures KeepsPadding(q, w, x, ys)
  {
    if q.left && q.emit(x, None) != [] && Partnered(q, x, ys) != [] {
      var y := Partnered(q, x, ys)[0];
      FlatMapMember(z => if q.on(x, z) then [z] else [], ys, y);
      assert w(Some(y));
      PartnersFiltered(q, w, x, ys);
      FlatMapMember(KeepRow(w), Partnered(q, x, ys), y);
    }
  }

  /** `a left join (b join c on .. and b.x = 1)`: a row of `a` without partner is lost when the join is merged. */
  lemma LeftJoinLosesRow()
    ensures var one := Rows.Cell(1.0, true, "1");
            var q := Query((x, y) => Rows.At(x, 0) == Rows.At(y, 0), true, (x, y) => [x]);
            var w := (y: Option<Rows.Row>) => y.Some? && Rows.At(y.value, 1) == one;
            Answer(q, [[one]], Filtered(w, [])) == [[one]] && Answer(Moved(q, w), [[one]], []) == []
  {
    var one := Rows.Cell(1.0, true, "1");
    var q := Query((x, y) => Rows.At(x, 0) == Rows.At(y, 0), true, (x, y) => [x]);
    var w := (y: Option<Rows.Row>) => y.Some? && Rows.At(y.value, 1) == one;
    FlatMapOne(x => AnswerOne(q, x, Filtered(w, [])), [one]);
    FlatMapOne(x => AnswerOne(Moved(q, w), x, []), [one]);
  }
}
