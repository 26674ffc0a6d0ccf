/** Fan-out of updates to subscriptions: the worker's compiled snapshot, its cheap
    pre-check and its lazy matcher against the plain meaning of the stored filters,
    and the account of updates that were lost on the way. */
module Fanout {
  import opened Common

  // A subscription as the registry stores it. Either list may be empty, which
  // restricts nothing on its axis. Unreadable stands for JSON that does not decode.
  datatype RawFilter = NoFilter | Unreadable | Spec(types: seq<string>, chats: seq<int>)
  datatype Filter = Filter(id: string, raw: RawFilter)

  // What decoding finds under a name of an update: nothing (or null), something of
  // the wrong type, or a value.
  datatype Field<T> = Missing | Bad | Present(value: T)
  datatype Payload = NotJson | Object(chatId: Field<int>, message: Field<Field<int>>)
  datatype Update = Update(ctor: string, payload: Payload)

  // ---------------------------------------------------------------- meaning

  // Which chat an update is matched by: chat_id where it has one, or else the
  // message's, which reads as 0 when the message lacks it.
  function ChatOf(p: Payload): Option<int> {
    match p
    case NotJson => None
    case Object(own, message) =>
      if own.Bad? || message.Bad? || (message.Present? && message.value.Bad?) then None
      else if own.Present? then Some(own.value)
      else match message
        case Present(Present(id)) => Some(id)
        case Present(_) => Some(0)
        case _ => None
  }

  predicate AdmitsType(raw: RawFilter, ctor: string) {
    match raw
    case NoFilter => true
    case Unreadable => false
    case Spec(types, _) => types == [] || ctor in types
  }

  predicate Admits(raw: RawFilter, u: Update) {
    && AdmitsType(raw, u.ctor)
    && (raw.Spec? && raw.chats != [] ==>
          ChatOf(u.payload).Some? && ChatOf(u.payload).value in raw.chats)
  }

  // The subscriptions an update is for, in their order.
  function Admitted(fs: seq<Filter>, u: Update): seq<string> {
    if fs == [] then []
    else
      var n := |fs| - 1;
      Admitted(fs[..n], u) + if Admits(fs[n].raw, u) then [fs[n].id] else []
  }

  // ---------------------------------------------------------------- snapshot

  datatype Subscription = Subscription(id: string, types: Option<set<string>>, chats: Option<set<int>>)
  datatype Snapshot = Snapshot(subs: seq<Subscription>, anyType: bool, types: set<string>)

  // A nil snapshot: no subscription at all, or none that can be read.
  type Snap = Option<Snapshot>

  function Compile(id: string, types: seq<string>, chats: seq<int>): Subscription {
    Subscription(id,
                 if types == [] then None else Some(Elems(types)),
                 if chats == [] then None else Some(Elems(chats)))
  }

  function TypesOf(raw: RawFilter): seq<string> {
    if raw.Spec? then raw.types else []
  }

  function ChatsOf(raw: RawFilter): seq<int> {
    if raw.Spec? then raw.chats else []
  }

  // A snapshot says the same as the filters it was made of.
  ghost predicate Speaks(snap: Snap, fs: seq<Filter>) {
    && (snap.None? <==> forall i :: 0 <= i < |fs| ==> fs[i].raw.Unreadable?)
    && (snap.Some? ==>
          && snap.value.subs == Compiled(fs)
          && (forall ctor: string :: Wants(snap, ctor) <==> SomeTakes(fs, ctor)))
  }

  predicate SomeTakes(fs: seq<Filter>, ctor: string) {
    exists i :: 0 <= i < |fs| && AdmitsType(fs[i].raw, ctor)
  }

  // wants: the receiver's pre-check.
  predicate Wants(snap: Snap, ctor: string) {
    snap.Some? && (snap.value.anyType || ctor in snap.value.types)
  }

  function Compiled(fs: seq<Filter>): seq<Subscription> {
    if fs == [] then []
    else
      var n := |fs| - 1;
      Compiled(fs[..n])
      + if fs[n].raw.Unreadable? then [] else [Compile(fs[n].id, TypesOf(fs[n].raw), ChatsOf(fs[n].raw))]
  }

  function AnyType(fs: seq<Filter>): bool {
    fs != [] && (AnyType(fs[..|fs| - 1]) || (!fs[|fs| - 1].raw.Unreadable? && TypesOf(fs[|fs| - 1].raw) == []))
  }

  function AllTypes(fs: seq<Filter>): set<string> {
    if fs == [] then {} else AllTypes(fs[..|fs| - 1]) + Elems(TypesOf(fs[|fs| - 1].raw))
  }

  lemma {:induction false} SomeTakesType(fs: seq<Filter>, ctor: string)
    ensures (AnyType(fs) || ctor in AllTypes(fs)) <==> SomeTakes(fs, ctor)
  {
    if fs != [] {
      var n := |fs| - 1;
      SomeTakesType(fs[..n], ctor);
      assert forall i :: 0 <= i < n ==> fs[..n][i] == fs[i];
      assert AdmitsType(fs[n].raw, ctor) <==>
        (!fs[n].raw.Unreadable? && TypesOf(fs[n].raw) == []) || ctor in TypesOf(fs[n].raw);
    }
  }

  lemma {:induction false} NoneReadable(fs: seq<Filter>)
    ensures Compiled(fs) == [] <==> forall i :: 0 <= i < |fs| ==> fs[i].raw.Unreadable?
  {
    if fs != [] {
      NoneReadable(fs[..|fs| - 1]);
      assert forall i :: 0 <= i < |fs| ==> i == |fs| - 1 || fs[i] == fs[..|fs| - 1][i];
    }
  }

  method NewSnapshot(fs: seq<Filter>) returns (snap: Snap)
    ensures Speaks(snap, fs)
  {
    if |fs| == 0 {
      return None;
    }
    var subs, anyType, types := [], false, {};
    for i := 0 to |fs|
      invariant subs == Compiled(fs[..i])
      invariant anyType == AnyType(fs[..i]) && types == AllTypes(fs[..i])
    {
      assert fs[..i + 1][..i] == fs[..i];
      var f := fs[i];
      if f.raw.Unreadable? {
        continue;
      }
      var sub := Subscription(f.id, None, None);
      if |TypesOf(f.raw)| > 0 {
        sub := sub.(types := Some(Elems(TypesOf(f.raw))));
        types := types + Elems(TypesOf(f.raw));
      } else {
        anyType := true;
      }
      if |ChatsOf(f.raw)| > 0 {
        sub := sub.(chats := Some(Elems(ChatsOf(f.raw))));
      }
      subs := subs + [sub];
    }
    assert fs[..|fs|] == fs;
    NoneReadable(fs);
    if |subs| == 0 {
      return None;
    }
    snap := Some(Snapshot(subs, anyType, types));
    forall ctor: string
      ensures Wants(snap, ctor) <==> SomeTakes(fs, ctor)
    {
      SomeTakesType(fs, ctor);
    }
  }

  predicate Takes(sub: Subscription, u: Update) {
    && (sub.types.None? || u.ctor in sub.types.value)
    && (sub.chats.None? || (ChatOf(u.payload).Some? && ChatOf(u.payload).value in sub.chats.value))
  }

  function Takers(subs: seq<Subscription>, u: Update): seq<string> {
    if subs == [] then []
    else
      var n := |subs| - 1;
      Takers(subs[..n], u) + if Takes(subs[n], u) then [subs[n].id] else []
  }

  // route: the chat is decoded only once some subscription asks for it.
  method Route(snap: Snapshot, u: Update) returns (ids: seq<string>)
    ensures ids == Takers(snap.subs, u)
  {
    var chat, looked := None, false;
    ids := [];
    for i := 0 to |snap.subs|
      invariant ids == Takers(snap.subs[..i], u)
      invariant looked ==> chat == ChatOf(u.payload)
    {
      assert snap.subs[..i + 1][..i] == snap.subs[..i];
      var sub := snap.subs[i];
      if sub.types.Some? && u.ctor !in sub.types.value {
        continue;
      }
      if sub.chats.Some? {
        if !looked {
          chat := ChatOf(u.payload);
          looked := true;
        }
        if chat.None? || chat.value !in sub.chats.value {
          continue;
        }
      }
      ids := ids + [sub.id];
    }
    assert snap.subs[..|snap.subs|] == snap.subs;
  }

  // ---------------------------------------------------------------- results

  lemma TakesIsAdmits(f: Filter, u: Update)
    requires !f.raw.Unreadable?
    ensures Takes(Compile(f.id, TypesOf(f.raw), ChatsOf(f.raw)), u) <==> Admits(f.raw, u)
  {
    hide ChatOf;
  }

  lemma {:induction false} TakersAreAdmitted(fs: seq<Filter>, u: Update)
    ensures Takers(Compiled(fs), u) == Admitted(fs, u)
  {
    hide Takes, Admits;
    if fs != [] {
      var n := |fs| - 1;
      var f := fs[n];
      TakersAreAdmitted(fs[..n], u);
      var subs, init := Compiled(fs), Compiled(fs[..n]);
      if f.raw.Unreadable? {
        assert subs == init;
        NobodyReads(f, u);
      } else {
        TakesIsAdmits(f, u);
        assert subs[..|subs| - 1] == init;
      }
    }
  }

  lemma NobodyReads(f: Filter, u: Update)
    requires f.raw.Unreadable?
    ensures !Admits(f.raw, u)
  {
  }

  lemma {:induction false} AdmittedHas(fs: seq<Filter>, u: Update)
    ensures Admitted(fs, u) != [] <==> exists i :: 0 <= i < |fs| && Admits(fs[i].raw, u)
  {
    if fs != [] {
      AdmittedHas(fs[..|fs| - 1], u);
      assert forall i :: 0 <= i < |fs| ==> i == |fs| - 1 || fs[i] == fs[..|fs| - 1][i];
    }
  }

  // The snapshot routes by the stored filters exactly, and its pre-check stops an
  // update only when no filter takes its type: so it stops none that is for anyone.
  lemma SnapshotIsFaithful(snap: Snap, fs: seq<Filter>, u: Update)
    requires Speaks(snap, fs)
    ensures snap.Some? ==> Takers(snap.value.subs, u) == Admitted(fs, u)
    ensures Wants(snap, u.ctor) <==> SomeTakes(fs, u.ctor)
    ensures Admitted(fs, u) != [] ==> Wants(snap, u.ctor)
  {
    TakersAreAdmitted(fs, u);
    AdmittedHas(fs, u);
    if Admitted(fs, u) != [] {
      var i :| 0 <= i < |fs| && Admits(fs[i].raw, u);
      assert AdmitsType(fs[i].raw, u.ctor);
    }
  }
}
