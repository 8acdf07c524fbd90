/** Edits converge: the order, the batching and stray undated copies do not decide a message's final text. */
module Convergence {
  import opened Prelude
  import opened ArchiveTypes
  import opened Import
  import opened PushFold

  datatype Push = Push(key: KeyId, batch: Batch, now: Time)

  ghost function PushAll(st: State, ps: seq<Push>): State {
    if ps == [] then st
    else
      var p := ps[|ps| - 1];
      ImportBatch(PushAll(st, ps[..|ps| - 1]), p.key, p.batch, p.now).0
  }

  /** Every batch is accepted, into the one source, and none deletes the message. */
  ghost predicate Accepted(st: State, ps: seq<Push>, at: Place) {
    forall i :: 0 <= i < |ps| ==>
      var out := ImportBatch(PushAll(st, ps[..i]), ps[i].key, ps[i].batch, ps[i].now).1;
      out.Ok? && out.value.source == at.source && Spares(ps[i].batch.deletes, at)
  }

  /** Every entry that named the message, in arrival order. */
  function Heard(ps: seq<Push>, at: Place): seq<Entry> {
    if ps == [] then []
    else Heard(ps[..|ps| - 1], at) + Naming(ps[|ps| - 1].batch.messages, at.chat, at.ext)
  }

  datatype Version = Version(text: Option<string>, editedAt: Option<Time>)

  function VersionAt(st: State, p: Place): Option<Version> {
    if p in st.messages then Some(Version(st.messages[p].row.text, st.messages[p].row.editedAt)) else None
  }

  /** A version that is the message's history so far: the first text, or a latest dated one. */
  ghost predicate Stands(v: Option<Version>, es: seq<Entry>) {
    if es == [] then v.None?
    else
      && v.Some?
      && (v.value.editedAt.None? ==> v.value.text == es[0].text)
      && (v.value.editedAt.Some? ==> exists e :: e in es && e.editedAt == v.value.editedAt && e.text == v.value.text)
      && (forall e :: e in es && e.editedAt.Some? ==> v.value.editedAt.Some? && e.editedAt.value <= v.value.editedAt.value)
  }

  function VersionOf(c: Option<Core>): Option<Version> {
    if c.Some? then Some(Version(c.value.text, c.value.editedAt)) else None
  }

  ghost predicate Alive(c: Option<Core>) {
    c.Some? ==> c.value.deletedAt.None?
  }

  lemma StepStands(c: Option<Core>, es: seq<Entry>, e: Entry, key: KeyId)
    requires Alive(c) && Stands(VersionOf(c), es)
    ensures Alive(CoreStep(c, e, key)) && Stands(VersionOf(CoreStep(c, e, key)), es + [e])
  {
    var v := VersionOf(CoreStep(c, e, key));
    assert e in es + [e];
    assert forall x :: x in es + [e] <==> x in es || x == e;
    if v.value.editedAt.Some? {
      if c.Some? && v == VersionOf(c) {
        var x :| x in es && x.editedAt == v.value.editedAt && x.text == v.value.text;
        assert x in es + [e];
      }
    }
  }

  lemma {:induction false} FoldStands(c: Option<Core>, heard: seq<Entry>, es: seq<Entry>, key: KeyId)
    requires Alive(c) && Stands(VersionOf(c), heard)
    ensures Alive(CoreFold(c, es, key)) && Stands(VersionOf(CoreFold(c, es, key)), heard + es)
  {
    if es == [] {
      assert heard + es == heard;
    } else {
      var rest := es[..|es| - 1];
      FoldStands(c, heard, rest, key);
      StepStands(CoreFold(c, rest, key), heard + rest, es[|es| - 1], key);
      assert heard + rest + [es[|es| - 1]] == heard + es;
    }
  }

  lemma {:induction false} PushesStand(st: State, ps: seq<Push>, at: Place)
    requires Accepted(st, ps, at) && at !in st.messages
    ensures Alive(CoreAt(PushAll(st, ps), at)) && Stands(VersionAt(PushAll(st, ps), at), Heard(ps, at))
  {
    hide ImportBatch, Spares;
    if ps != [] {
      hide Stands;
      var rest, p := ps[..|ps| - 1], ps[|ps| - 1];
      assert forall i :: 0 <= i < |rest| ==> rest[..i] == ps[..i];
      PushesStand(st, rest, at);
      var mid := PushAll(st, rest);
      assert ps[..|rest|] == rest;
      ImportCore(mid, p.key, p.batch, p.now, at);
      FoldStands(CoreAt(mid, at), Heard(rest, at), Naming(p.batch.messages, at.chat, at.ext), p.key);
    }
  }

  /** Entries of one message dated the same carry the same text. */
  ghost predicate TiesAgree(es: seq<Entry>) {
    forall a, b :: a in es && b in es && a.editedAt.Some? && a.editedAt == b.editedAt ==> a.text == b.text
  }

  function DatedVersions(es: seq<Entry>): set<Version> {
    set e | e in es && e.editedAt.Some? :: Version(e.text, e.editedAt)
  }

  ghost predicate IsLatest(e: Entry, es: seq<Entry>) {
    e in es && e.editedAt.Some? && forall x :: x in es && x.editedAt.Some? ==> x.editedAt.value <= e.editedAt.value
  }

  lemma LatestStands(v: Option<Version>, es: seq<Entry>, e: Entry)
    requires Stands(v, es) && TiesAgree(es) && IsLatest(e, es)
    ensures v == Some(Version(e.text, e.editedAt))
  {
  }

  lemma SameDatesSameVersion(v: Option<Version>, es: seq<Entry>, w: Option<Version>, fs: seq<Entry>)
    requires Stands(v, es) && Stands(w, fs) && TiesAgree(es)
    requires DatedVersions(es) == DatedVersions(fs) != {}
    ensures v == w
  {
    var d :| d in DatedVersions(es);
    var e :| e in es && e.editedAt == v.value.editedAt && e.text == v.value.text;
    var f :| f in fs && f.editedAt == w.value.editedAt && f.text == w.value.text;
    assert Version(e.text, e.editedAt) in DatedVersions(fs);
    assert Version(f.text, f.editedAt) in DatedVersions(es);
  }

  /** With no dated entry the first text stands; otherwise a latest dated one does. */
  lemma EditsConverge(st: State, ps: seq<Push>, at: Place, e: Entry)
    requires Accepted(st, ps, at) && at !in st.messages && e in Heard(ps, at)
    ensures DatedVersions(Heard(ps, at)) == {} ==>
      VersionAt(PushAll(st, ps), at) == Some(Version(Heard(ps, at)[0].text, None))
    ensures TiesAgree(Heard(ps, at)) && IsLatest(e, Heard(ps, at)) ==>
      VersionAt(PushAll(st, ps), at) == Some(Version(e.text, e.editedAt))
  {
    PushesStand(st, ps, at);
    hide Accepted, PushAll, TiesAgree, IsLatest;
    var es, v := Heard(ps, at), VersionAt(PushAll(st, ps), at);
    if TiesAgree(es) && IsLatest(e, es) {
      LatestStands(v, es, e);
    }
    if v.value.editedAt.Some? {
      var x :| x in es && x.editedAt == v.value.editedAt && x.text == v.value.text;
      assert Version(x.text, x.editedAt) in DatedVersions(es);
    }
  }

  /** Two histories with the same dated versions agree, whatever their order, batching, keys and undated copies. */
  lemma HistoriesAgree(st: State, ps: seq<Push>, at: Place, st2: State, qs: seq<Push>, to: Place)
    requires Accepted(st, ps, at) && at !in st.messages && Accepted(st2, qs, to) && to !in st2.messages
    requires TiesAgree(Heard(ps, at)) && DatedVersions(Heard(ps, at)) == DatedVersions(Heard(qs, to)) != {}
    ensures VersionAt(PushAll(st, ps), at) == VersionAt(PushAll(st2, qs), to)
  {
    hide Accepted, PushAll, Stands, DatedVersions, VersionAt;
    PushesStand(st, ps, at);
    PushesStand(st2, qs, to);
    SameDatesSameVersion(VersionAt(PushAll(st, ps), at), Heard(ps, at), VersionAt(PushAll(st2, qs), to), Heard(qs, to));
  }
}
