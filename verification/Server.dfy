/** The language server's session: batches of messages over open documents, with publications at
    the end of each batch. What the server sends is the log `sent`. */
module Server {
  import opened Options
  import L = LineIndex
  import opened Documents

  type Uri = string
  type Id = int

  datatype Ask = Shutdown | Symbols(uri: Uri) | Folds(uri: Uri) | BadParams | Unknown

  datatype Note =
    | Exit
    | Opened(uri: Uri, version: int, text: string)
    | Changed(uri: Uri, version: int, changes: seq<Change>)
    | Closed(uri: Uri)
    | Cancel(id: Id)
    | Malformed
    | Other

  datatype Message = Request(id: Id, ask: Ask) | Notification(note: Note) | Response

  datatype Code = InvalidRequest | InvalidParams | MethodNotFound | Canceled

  /** The result of a request: none, what was read of a document's text, or an error. */
  datatype Result = Done | Read(of: Option<string>) | Failed(code: Code)

  /** A publication describes a version and the text its diagnostics are of; that of a closed
      document describes neither. */
  datatype Sent =
    | Answer(id: Id, result: Result)
    | Publish(uri: Uri, version: Option<int>, of: Option<string>)
    | Log

  datatype Ended = AfterShutdown | WithoutShutdown

  // ----- The session, as its documents' texts -----

  datatype Text = Text(text: string, version: int)

  datatype Session = Session(docs: map<Uri, Text>, down: bool)

  /** A batch under way: the session, the documents to publish, what was sent, and the documents
      that were opened, changed or closed. */
  datatype Work = Work(s: Session, changed: seq<Uri>, sent: seq<Sent>, touched: set<Uri>)

  function Marked(changed: seq<Uri>, uri: Uri): seq<Uri> {
    if uri in changed then changed else changed + [uri]
  }

  function Without(changed: seq<Uri>, uri: Uri): seq<Uri> {
    if changed == [] then [] else (if changed[0] == uri then [] else [changed[0]]) + Without(changed[1..], uri)
  }

  function TextOf(s: Session, uri: Uri): Option<string> {
    if uri in s.docs then Some(s.docs[uri].text) else None
  }

  function Reply(s: Session, ask: Ask): Result {
    if s.down then Failed(InvalidRequest)
    else match ask
      case Shutdown => Done
      case Symbols(uri) => Read(TextOf(s, uri))
      case Folds(uri) => Read(TextOf(s, uri))
      case BadParams => Failed(InvalidParams)
      case Unknown => Failed(MethodNotFound)
  }

  function Asked(w: Work, id: Id, ask: Ask): Work {
    w.(sent := w.sent + [Answer(id, Reply(w.s, ask))], s := w.s.(down := w.s.down || ask.Shutdown?))
  }

  function Logs(n: nat): seq<Sent> {
    seq(n, _ => Log)
  }

  function Noted(w: Work, n: Note, e: L.Encoding): Work {
    if w.s.down then w
    else match n
      case Opened(uri, version, text) =>
        Work(w.s.(docs := w.s.docs[uri := Text(text, version)]), Marked(w.changed, uri),
             w.sent + Logs(if uri in w.s.docs then 1 else 0), w.touched + {uri})
      case Changed(uri, version, changes) =>
        if uri !in w.s.docs then w.(sent := w.sent + Logs(1))
        else
          var was := w.s.docs[uri].text;
          Work(w.s.(docs := w.s.docs[uri := Text(EditedAll(was, e, changes), version)]), Marked(w.changed, uri),
               w.sent + Logs(Refusals(was, e, changes)), w.touched + {uri})
      case Closed(uri) =>
        Work(w.s.(docs := w.s.docs - {uri}), Without(w.changed, uri), w.sent + [Publish(uri, None, None)],
            w.touched + {uri})
      case Malformed => w.(sent := w.sent + Logs(1))
      case _ => w
  }

  predicate IsExit(m: Message) {
    m.Notification? && m.note.Exit?
  }

  function Handle(w: Work, m: Message, cancelled: set<Id>, e: L.Encoding): Work {
    match m
    case Request(id, ask) => if id in cancelled then w.(sent := w.sent + [Answer(id, Failed(Canceled))])
        else Asked(w, id, ask)
    case Notification(n) => Noted(w, n, e)
    case Response => w
  }

  function HandleAll(w: Work, ms: seq<Message>, cancelled: set<Id>, e: L.Encoding): Work
    decreases |ms|
  {
    if ms == [] then w else HandleAll(Handle(w, ms[0], cancelled, e), ms[1..], cancelled, e)
  }

  function Cancelled(ms: seq<Message>): set<Id> {
    set m | m in ms && m.Notification? && m.note.Cancel? :: m.note.id
  }

  /** The messages before `exit`. */
  function BeforeExit(ms: seq<Message>): (r: seq<Message>)
    ensures |r| <= |ms| && r == ms[..|r|] && (|r| < |ms| ==> IsExit(ms[|r|]))
            && forall i :: 0 <= i < |r| ==> !IsExit(r[i])
  {
    if ms == [] || IsExit(ms[0]) then [] else [ms[0]] + BeforeExit(ms[1..])
  }

  /** The publications at the end of a batch. */
  function Publications(s: Session, changed: seq<Uri>): seq<Sent> {
    if changed == [] then []
    else (if changed[0] in s.docs then [Publish(changed[0], Some(s.docs[changed[0]].version),
        Some(s.docs[changed[0]].text))] else [])
         + Publications(s, changed[1..])
  }

  function InBatch(s: Session, ms: seq<Message>, e: L.Encoding): Work {
    HandleAll(Work(s, [], [], {}), BeforeExit(ms), Cancelled(ms), e)
  }

  /** What a batch sends. */
  function SentIn(s: Session, ms: seq<Message>, e: L.Encoding): seq<Sent> {
    var w := InBatch(s, ms, e);
    if BeforeExit(ms) == ms then w.sent + Publications(w.s, w.changed) else w.sent
  }

  function Over(s: Session, ms: seq<Message>, e: L.Encoding): Option<Ended> {
    if BeforeExit(ms) == ms then None else Some(if InBatch(s, ms, e).s.down then AfterShutdown else WithoutShutdown)
  }

  // ----- One answer for each request -----

  function RequestIds(ms: seq<Message>): seq<Id> {
    if ms == [] then [] else (if ms[0].Request? then [ms[0].id] else []) + RequestIds(ms[1..])
  }

  function AnswerIds(sent: seq<Sent>): seq<Id> {
    if sent == [] then [] else (if sent[0].Answer? then [sent[0].id] else []) + AnswerIds(sent[1..])
  }

  lemma Regroup<T>(a: seq<T>, b: seq<T>, c: seq<T>)
    ensures a + (b + c) == a + b + c
  {
  }

  lemma {:induction false} AnswersJoined(a: seq<Sent>, b: seq<Sent>)
    ensures AnswerIds(a + b) == AnswerIds(a) + AnswerIds(b)
  {
    if a == [] {
      assert a + b == b;
    } else {
      AnswersJoined(a[1..], b);
      var own := if a[0].Answer? then [a[0].id] else [];
      assert AnswerIds(a + b) == own + AnswerIds(a[1..] + b) by { assert (a + b)[1..] == a[1..] + b; }
      assert AnswerIds(a) == own + AnswerIds(a[1..]);
      hide AnswerIds;
      Regroup(own, AnswerIds(a[1..]), AnswerIds(b));
    }
  }

  lemma {:induction false} NoAnswers(sent: seq<Sent>)
    requires forall i :: 0 <= i < |sent| ==> !sent[i].Answer?
    ensures AnswerIds(sent) == []
  {
    if sent != [] { NoAnswers(sent[1..]); }
  }

  /** What handling one message sends: the answer of a request, and none to anything else. */
  lemma HandleSends(w: Work, m: Message, cancelled: set<Id>, e: L.Encoding)
    ensures var sent := Handle(w, m, cancelled, e).sent;
            && w.sent <= sent
            && (m.Request? ==>
                  var result := if m.id in cancelled then Failed(Canceled) else Reply(w.s, m.ask);
                  sent == w.sent + [Answer(m.id, result)])
            && (!m.Request? ==> forall i :: |w.sent| <= i < |sent| ==> !sent[i].Answer?)
  {
    hide Without, Marked, EditedAll, Refusals, Reply;
  }

  lemma HandleAnswers(w: Work, m: Message, cancelled: set<Id>, e: L.Encoding)
    ensures AnswerIds(Handle(w, m, cancelled, e).sent) == AnswerIds(w.sent) + if m.Request? then [m.id] else []
  {
    hide Handle;
    HandleSends(w, m, cancelled, e);
    var sent := Handle(w, m, cancelled, e).sent;
    var added := sent[|w.sent|..];
    AnswersJoined(w.sent, added);
    if m.Request? { OneAnswerId(added[0]); assert added == [added[0]]; } else { NoAnswers(added); }
    hide AnswerIds;
    assert sent == w.sent + added;
  }

  lemma OneAnswerId(a: Sent)
    requires a.Answer?
    ensures AnswerIds([a]) == [a.id]
  {
    assert AnswerIds([]) == [];
  }

  lemma {:induction false} AllAnswers(w: Work, ms: seq<Message>, cancelled: set<Id>, e: L.Encoding)
    ensures AnswerIds(HandleAll(w, ms, cancelled, e).sent) == AnswerIds(w.sent) + RequestIds(ms)
    decreases |ms|
  {
    hide Handle, AnswerIds;
    if ms == [] {
      assert AnswerIds(w.sent) + [] == AnswerIds(w.sent);
    } else {
      HandleAnswers(w, ms[0], cancelled, e);
      AllAnswers(Handle(w, ms[0], cancelled, e), ms[1..], cancelled, e);
      var own := if ms[0].Request? then [ms[0].id] else [];
      assert AnswerIds(w.sent) + own + RequestIds(ms[1..]) == AnswerIds(w.sent) + (own + RequestIds(ms[1..]));
    }
  }

  lemma {:induction false} PublicationsAnswerNone(s: Session, changed: seq<Uri>)
    ensures AnswerIds(Publications(s, changed)) == []
  {
    if changed != [] {
      PublicationsAnswerNone(s, changed[1..]);
      var first := if changed[0] in s.docs then [Publish(changed[0], Some(s.docs[changed[0]].version),
          Some(s.docs[changed[0]].text))] else [];
      AnswersJoined(first, Publications(s, changed[1..]));
      NoAnswers(first);
    }
  }

  /** Every request of a batch before its `exit` gets exactly one answer, in order. */
  lemma OneAnswerEach(s: Session, ms: seq<Message>, e: L.Encoding)
    ensures AnswerIds(SentIn(s, ms, e)) == RequestIds(BeforeExit(ms))
  {
    AllAnswers(Work(s, [], [], {}), BeforeExit(ms), Cancelled(ms), e);
    var w := InBatch(s, ms, e);
    AnswersJoined(w.sent, Publications(w.s, w.changed));
    PublicationsAnswerNone(w.s, w.changed);
  }

  // ----- The last publication -----

  function LastPublished(sent: seq<Sent>, uri: Uri): Option<Sent> {
    if sent == [] then None
    else if sent[|sent| - 1].Publish? && sent[|sent| - 1].uri == uri then Some(sent[|sent| - 1])
    else LastPublished(sent[..|sent| - 1], uri)
  }

  lemma {:induction false} LastJoined(a: seq<Sent>, b: seq<Sent>, uri: Uri)
    ensures LastPublished(a + b, uri) == if LastPublished(b, uri).Some? then LastPublished(b, uri)
            else LastPublished(a, uri)
    decreases |b|
  {
    if b == [] {
      assert a + b == a;
    } else {
      assert (a + b)[..|a + b| - 1] == a + b[..|b| - 1];
      LastJoined(a, b[..|b| - 1], uri);
    }
  }

  lemma {:induction false} NoneOf(sent: seq<Sent>, uri: Uri)
    requires forall i :: 0 <= i < |sent| ==> !(sent[i].Publish? && sent[i].uri == uri)
    ensures LastPublished(sent, uri) == None
  {
    if sent != [] { NoneOf(sent[..|sent| - 1], uri); }
  }

  ghost predicate NoRepeats(changed: seq<Uri>) {
    forall i, j :: 0 <= i < j < |changed| ==> changed[i] != changed[j]
  }

  /** Each document touched in the batch is open and waits to be published, or is closed and its
      last publication says so. */
  ghost predicate Tracked(w: Work) {
    && NoRepeats(w.changed) && (forall u :: u in w.changed ==> u in w.touched && u in w.s.docs)
    && (forall u :: u in w.touched && u !in w.changed ==>
        u !in w.s.docs && LastPublished(w.sent, u) == Some(Publish(u, None, None)))
  }

  lemma {:induction false} WithoutIt(changed: seq<Uri>, uri: Uri)
    ensures forall u :: u in Without(changed, uri) <==> u in changed && u != uri
    ensures NoRepeats(changed) ==> NoRepeats(Without(changed, uri))
  {
    if changed != [] {
      WithoutIt(changed[1..], uri);
      assert changed == [changed[0]] + changed[1..];
      if NoRepeats(changed) {
        assert NoRepeats(changed[1..]);
        var rest := Without(changed[1..], uri);
        assert changed[0] !in rest;
      }
    }
  }

  /** Sending what is not a publication of `u` leaves its last one. */
  lemma StillLast(sent: seq<Sent>, added: seq<Sent>, u: Uri)
    requires forall i :: 0 <= i < |added| ==> !(added[i].Publish? && added[i].uri == u)
    ensures LastPublished(sent + added, u) == LastPublished(sent, u)
  {
    LastJoined(sent, added, u);
    NoneOf(added, u);
  }

  /** A step that says nothing of the documents that wait for nothing. */
  lemma StillTracked(w: Work, r: Work)
    requires Tracked(w) && w.sent <= r.sent && NoRepeats(r.changed)
    requires forall u :: u in r.changed ==> u in r.touched && u in r.s.docs
    requires forall u :: u in r.touched && u !in r.changed ==> u in w.touched && u !in w.changed && u !in r.s.docs
    requires forall i :: |w.sent| <= i < |r.sent| ==> !r.sent[i].Publish?
    ensures Tracked(r)
  {
    var added := r.sent[|w.sent|..];
    assert r.sent == w.sent + added;
    forall u | u in r.touched && u !in r.changed
      ensures u !in r.s.docs && LastPublished(r.sent, u) == Some(Publish(u, None, None))
    {
      StillLast(w.sent, added, u);
    }
  }

  lemma CloseTracked(w: Work, uri: Uri, e: L.Encoding)
    requires Tracked(w) && !w.s.down
    ensures Tracked(Noted(w, Closed(uri), e))
  {
    hide LastPublished, Without;
    var r, said := Noted(w, Closed(uri), e), [Publish(uri, None, None)];
    WithoutIt(w.changed, uri);
    LastOfOne(w.sent, uri);
    forall u | u in r.touched && u !in r.changed
      ensures u !in r.s.docs && LastPublished(r.sent, u) == Some(Publish(u, None, None))
    {
      if u != uri { StillLast(w.sent, said, u); }
    }
  }

  lemma LastOfOne(sent: seq<Sent>, uri: Uri)
    ensures LastPublished(sent + [Publish(uri, None, None)], uri) == Some(Publish(uri, None, None))
  {
  }

  lemma HandleTracked(w: Work, m: Message, cancelled: set<Id>, e: L.Encoding)
    requires Tracked(w)
    ensures Tracked(Handle(w, m, cancelled, e))
  {
    hide LastPublished, EditedAll, Refusals;
    if m.Notification? && m.note.Closed? && !w.s.down {
      CloseTracked(w, m.note.uri, e);
    } else {
      StillTracked(w, Handle(w, m, cancelled, e));
    }
  }

  lemma {:induction false} AllTracked(w: Work, ms: seq<Message>, cancelled: set<Id>, e: L.Encoding)
    requires Tracked(w)
    ensures Tracked(HandleAll(w, ms, cancelled, e))
    decreases |ms|
  {
    if ms != [] {
      HandleTracked(w, ms[0], cancelled, e);
      AllTracked(Handle(w, ms[0], cancelled, e), ms[1..], cancelled, e);
    }
  }

  /** What a publication should say of a document. */
  function Described(s: Session, u: Uri): Sent {
    if u in s.docs then Publish(u, Some(s.docs[u].version), Some(s.docs[u].text)) else Publish(u, None, None)
  }

  lemma {:induction false} PublicationsLast(s: Session, changed: seq<Uri>, u: Uri)
    requires NoRepeats(changed) && forall x :: x in changed ==> x in s.docs
    ensures LastPublished(Publications(s, changed), u) == if u in changed then Some(Described(s, u)) else None
  {
    if changed != [] {
      var first, rest := changed[0], changed[1..];
      assert changed == [first] + rest;
      assert NoRepeats(rest) && first !in rest;
      PublicationsLast(s, rest, u);
      LastJoined([Described(s, first)], Publications(s, rest), u);
      assert LastPublished([Described(s, first)], u) == if u == first then Some(Described(s, first)) else None by {
        assert [Described(s, first)][..0] == [];
      }
    }
  }

  /** At the end of a batch without `exit`, the last publication of every document opened, changed
      or closed in it describes the document as it then is. */
  lemma LastDescribes(s: Session, ms: seq<Message>, e: L.Encoding, u: Uri)
    requires BeforeExit(ms) == ms && u in InBatch(s, ms, e).touched
    ensures LastPublished(SentIn(s, ms, e), u) == Some(Described(InBatch(s, ms, e).s, u))
  {
    AllTracked(Work(s, [], [], {}), BeforeExit(ms), Cancelled(ms), e);
    var w := InBatch(s, ms, e);
    PublicationsLast(w.s, w.changed, u);
    LastJoined(w.sent, Publications(w.s, w.changed), u);
  }

  // ----- Each document by its own messages -----

  /** One document through the messages that name it. */
  function Replay(t: Option<Text>, u: Uri, ms: seq<Message>, cancelled: set<Id>, down: bool,
          e: L.Encoding): Option<Text>
    decreases |ms|
  {
    if ms == [] then t
    else
      var down' := down || (ms[0].Request? && ms[0].id !in cancelled && ms[0].ask.Shutdown?);
      Replay(if down || !ms[0].Notification? then t else Followed(t, u, ms[0].note, e), u, ms[1..], cancelled, down', e)
  }

  function Followed(t: Option<Text>, u: Uri, n: Note, e: L.Encoding): Option<Text> {
    match n
    case Opened(uri, version, text) => if uri == u then Some(Text(text, version)) else t
    case Changed(uri, version, changes) => if uri == u && t.Some?
        then Some(Text(EditedAll(t.value.text, e, changes), version)) else t
    case Closed(uri) => if uri == u then None else t
    case _ => t
  }

  function DocOf(s: Session, u: Uri): Option<Text> {
    if u in s.docs then Some(s.docs[u]) else None
  }

  /** A document's text is the replay of its own accepted edits, since it was last opened. */
  lemma {:induction false} DocumentReplayed(w: Work, ms: seq<Message>, cancelled: set<Id>, e: L.Encoding, u: Uri)
    ensures DocOf(HandleAll(w, ms, cancelled, e).s, u) == Replay(DocOf(w.s, u), u, ms, cancelled, w.s.down, e)
    decreases |ms|
  {
    if ms != [] { DocumentReplayed(Handle(w, ms[0], cancelled, e), ms[1..], cancelled, e, u); }
  }

  // ----- What each request is answered -----

  /** A shutdown was asked for, and not cancelled, before the `n`th message. */
  ghost predicate DownBy(s: Session, ms: seq<Message>, cancelled: set<Id>, n: nat)
    requires n <= |ms|
  {
    s.down || exists i | 0 <= i < n :: ms[i].Request? && ms[i].ask.Shutdown? && ms[i].id !in cancelled
  }

  /** What the `n`th message, a request, is due: a document's text is the replay of its own messages
      before the request. */
  ghost function Due(s: Session, ms: seq<Message>, cancelled: set<Id>, n: nat, e: L.Encoding): Result
    requires n < |ms| && ms[n].Request?
  {
    if ms[n].id in cancelled then Failed(Canceled)
    else if DownBy(s, ms, cancelled, n) then Failed(InvalidRequest)
    else
      match ms[n].ask
      case Shutdown => Done
      case BadParams => Failed(InvalidParams)
      case Unknown => Failed(MethodNotFound)
      case _ =>
        var doc := Replay(DocOf(s, ms[n].ask.uri), ms[n].ask.uri, ms[..n], cancelled, s.down, e);
        Read(if doc.Some? then Some(doc.value.text) else None)
  }

  ghost function AllDue(s: Session, ms: seq<Message>, cancelled: set<Id>, n: nat, e: L.Encoding): seq<Sent>
    requires n <= |ms|
  {
    if n == 0 then []
    else
      AllDue(s, ms, cancelled, n - 1, e)
      + (if ms[n - 1].Request? then [Answer(ms[n - 1].id, Due(s, ms, cancelled, n - 1, e))] else [])
  }

  function Answers(sent: seq<Sent>): seq<Sent> {
    if sent == [] then [] else (if sent[0].Answer? then [sent[0]] else []) + Answers(sent[1..])
  }

  lemma {:induction false} AnswersOf(a: seq<Sent>, b: seq<Sent>)
    ensures Answers(a + b) == Answers(a) + Answers(b)
  {
    if a == [] {
      assert a + b == b;
    } else {
      AnswersOf(a[1..], b);
      var own := if a[0].Answer? then [a[0]] else [];
      assert Answers(a + b) == own + Answers(a[1..] + b) by { assert (a + b)[1..] == a[1..] + b; }
      assert Answers(a) == own + Answers(a[1..]);
      hide Answers;
      Regroup(own, Answers(a[1..]), Answers(b));
    }
  }

  lemma {:induction false} NoAnswer(sent: seq<Sent>)
    requires forall i :: 0 <= i < |sent| ==> !sent[i].Answer?
    ensures Answers(sent) == []
  {
    if sent != [] { NoAnswer(sent[1..]); }
  }

  lemma {:induction false} HandleOneMore(w: Work, ms: seq<Message>, cancelled: set<Id>, e: L.Encoding, n: nat)
    requires n < |ms|
    ensures HandleAll(w, ms[..n + 1], cancelled, e) == Handle(HandleAll(w, ms[..n], cancelled, e), ms[n], cancelled, e)
    decreases |ms|
  {
    hide Handle;
    if n > 0 {
      HandleOneMore(Handle(w, ms[0], cancelled, e), ms[1..], cancelled, e, n - 1);
      assert ms[..n + 1][1..] == ms[1..][..n] && ms[..n][1..] == ms[1..][..n - 1];
    } else {
      assert ms[..1][1..] == [] && ms[..0] == [];
    }
  }

  lemma {:induction false} DownAfter(w: Work, ms: seq<Message>, cancelled: set<Id>, e: L.Encoding, n: nat)
    requires n <= |ms|
    ensures HandleAll(w, ms[..n], cancelled, e).s.down <==> DownBy(w.s, ms, cancelled, n)
  {
    if n > 0 {
      DownAfter(w, ms, cancelled, e, n - 1);
      HandleOneMore(w, ms, cancelled, e, n - 1);
      hide HandleAll;
      var m := ms[n - 1];
      if m.Request? && m.ask.Shutdown? && m.id !in cancelled { assert DownBy(w.s, ms, cancelled, n); }
    }
  }

  /** The reply, from the state the messages before it leave, is what is due. */
  lemma {:induction false} ReplyDue(w: Work, ms: seq<Message>, cancelled: set<Id>, e: L.Encoding, n: nat)
    requires n < |ms| && ms[n].Request? && ms[n].id !in cancelled
    ensures Reply(HandleAll(w, ms[..n], cancelled, e).s, ms[n].ask) == Due(w.s, ms, cancelled, n, e)
  {
    hide HandleAll, Replay, DownBy;
    DownAfter(w, ms, cancelled, e, n);
    var ask := ms[n].ask;
    if ask.Symbols? || ask.Folds? { DocumentReplayed(w, ms[..n], cancelled, e, ask.uri); }
  }

  lemma {:induction false} CanceledDue(w: Work, ms: seq<Message>, cancelled: set<Id>, e: L.Encoding, n: nat)
    requires n < |ms| && ms[n].Request? && ms[n].id in cancelled
    ensures Due(w.s, ms, cancelled, n, e) == Failed(Canceled)
  {}

  lemma {:induction false} NothingHandled(w: Work, ms: seq<Message>, cancelled: set<Id>, e: L.Encoding)
    ensures HandleAll(w, ms[..0], cancelled, e) == w
  {}

  lemma {:induction false} AnsweredDue(w: Work, ms: seq<Message>, cancelled: set<Id>, e: L.Encoding, n: nat)
    requires n <= |ms|
    ensures Answers(HandleAll(w, ms[..n], cancelled, e).sent) == Answers(w.sent) + AllDue(w.s, ms, cancelled, n, e)
  {
    hide HandleAll, Handle, Replay, DownBy, Reply, Answers, Due;
    if n == 0 {
      NothingHandled(w, ms, cancelled, e);
    } else {
      AnsweredDue(w, ms, cancelled, e, n - 1);
      HandleOneMore(w, ms, cancelled, e, n - 1);
      OneAnswered(HandleAll(w, ms[..n - 1], cancelled, e), ms[n - 1], cancelled, e);
      var last: seq<Sent> := [];
      if ms[n - 1].Request? {
        if ms[n - 1].id !in cancelled {
          ReplyDue(w, ms, cancelled, e, n - 1);
        } else {
          CanceledDue(w, ms, cancelled, e, n - 1);
        }
        last := [Answer(ms[n - 1].id, Due(w.s, ms, cancelled, n - 1, e))];
      }
      var a, b := Answers(w.sent), AllDue(w.s, ms, cancelled, n - 1, e);
      assert a + b + last == a + (b + last);
    }
  }

  lemma OneAnswered(w: Work, m: Message, cancelled: set<Id>, e: L.Encoding)
    ensures Answers(Handle(w, m, cancelled, e).sent)
         == Answers(w.sent) + if m.Request? then [Answer(m.id, if m.id in cancelled then Failed(Canceled)
             else Reply(w.s, m.ask))]
                              else []
  {
    hide Handle, Reply;
    HandleSends(w, m, cancelled, e);
    var sent := Handle(w, m, cancelled, e).sent;
    var added := sent[|w.sent|..];
    AnswersOf(w.sent, added);
    if m.Request? { OnlyAnswer(added[0]); assert added == [added[0]]; } else { NoAnswer(added); }
    hide Answers;
    assert sent == w.sent + added;
  }

  lemma OnlyAnswer(a: Sent)
    requires a.Answer?
    ensures Answers([a]) == [a]
  {
    assert Answers([]) == [];
  }

  lemma {:induction false} PublishingAnswersNone(s: Session, changed: seq<Uri>)
    ensures forall i | 0 <= i < |Publications(s, changed)| :: !Publications(s, changed)[i].Answer?
  {
    if changed != [] { PublishingAnswersNone(s, changed[1..]); }
  }

  /** The answers of a batch are what its requests are due, in order. */
  lemma AnswersAreDue(s: Session, ms: seq<Message>, e: L.Encoding)
    ensures Answers(SentIn(s, ms, e)) == AllDue(s, BeforeExit(ms), Cancelled(ms), |BeforeExit(ms)|, e)
  {
    var before := BeforeExit(ms);
    assert before[..|before|] == before;
    AnsweredDue(Work(s, [], [], {}), before, Cancelled(ms), e, |before|);
    var w := InBatch(s, ms, e);
    AnswersOf(w.sent, Publications(w.s, w.changed));
    PublishingAnswersNone(w.s, w.changed);
    NoAnswer(Publications(w.s, w.changed));
  }

  // ----- Whole sessions -----

  /** A notification that does not touch a document only adds to what was sent, and of other documents. */
  lemma NotedUntouched(w: Work, n: Note, e: L.Encoding, u: Uri)
    requires u !in Noted(w, n, e).touched
    ensures var r := Noted(w, n, e);
            && u !in w.touched && DocOf(r.s, u) == DocOf(w.s, u) && w.sent <= r.sent
            && forall i :: |w.sent| <= i < |r.sent| ==> !(r.sent[i].Publish? && r.sent[i].uri == u)
  {
    hide Without, Marked, EditedAll, Refusals;
  }

  /** A document that a message does not touch stays as it was, and nothing is said of it. */
  lemma HandleUntouched(w: Work, m: Message, cancelled: set<Id>, e: L.Encoding, u: Uri)
    requires u !in Handle(w, m, cancelled, e).touched
    ensures var r := Handle(w, m, cancelled, e);
            u !in w.touched && DocOf(r.s, u) == DocOf(w.s, u) && LastPublished(r.sent, u) == LastPublished(w.sent, u)
  {
    hide LastPublished, Noted, Reply;
    var r := Handle(w, m, cancelled, e);
    if m.Notification? { NotedUntouched(w, m.note, e, u); }
    var added := r.sent[|w.sent|..];
    assert r.sent == w.sent + added;
    StillLast(w.sent, added, u);
  }

  lemma {:induction false} AllUntouched(w: Work, ms: seq<Message>, cancelled: set<Id>, e: L.Encoding, u: Uri)
    requires u !in HandleAll(w, ms, cancelled, e).touched
    ensures var r := HandleAll(w, ms, cancelled, e);
            u !in w.touched && DocOf(r.s, u) == DocOf(w.s, u) && LastPublished(r.sent, u) == LastPublished(w.sent, u)
    decreases |ms|
  {
    if ms != [] {
      AllUntouched(Handle(w, ms[0], cancelled, e), ms[1..], cancelled, e, u);
      HandleUntouched(w, ms[0], cancelled, e, u);
    }
  }

  lemma BatchUntouched(s: Session, ms: seq<Message>, e: L.Encoding, u: Uri)
    requires BeforeExit(ms) == ms && u !in InBatch(s, ms, e).touched
    ensures DocOf(InBatch(s, ms, e).s, u) == DocOf(s, u) && LastPublished(SentIn(s, ms, e), u) == None
  {
    var start := Work(s, [], [], {});
    AllTracked(start, BeforeExit(ms), Cancelled(ms), e);
    AllUntouched(start, BeforeExit(ms), Cancelled(ms), e, u);
    var w := InBatch(s, ms, e);
    PublicationsLast(w.s, w.changed, u);
    LastJoined(w.sent, Publications(w.s, w.changed), u);
  }

  ghost predicate NoExit(batches: seq<seq<Message>>) {
    forall i :: 0 <= i < |batches| ==> BeforeExit(batches[i]) == batches[i]
  }

  function SessionAfter(s: Session, batches: seq<seq<Message>>, e: L.Encoding): Session {
    if batches == [] then s
    else
      var n := |batches| - 1;
      InBatch(SessionAfter(s, batches[..n], e), batches[n], e).s
  }

  function SentOver(s: Session, batches: seq<seq<Message>>, e: L.Encoding): seq<Sent> {
    if batches == [] then []
    else
      var n := |batches| - 1;
      SentOver(s, batches[..n], e) + SentIn(SessionAfter(s, batches[..n], e), batches[n], e)
  }

  function RequestsOver(batches: seq<seq<Message>>): seq<Id> {
    if batches == [] then [] else RequestsOver(batches[..|batches| - 1]) + RequestIds(batches[|batches| - 1])
  }

  function ReplayOver(s: Session, u: Uri, batches: seq<seq<Message>>, e: L.Encoding): Option<Text> {
    if batches == [] then DocOf(s, u)
    else
      var n := |batches| - 1;
      Replay(ReplayOver(s, u, batches[..n], e), u, batches[n], Cancelled(batches[n]),
          SessionAfter(s, batches[..n], e).down, e)
  }

  /** Over any run of batches without `exit`: every request is answered once, in order; each
      document is the replay of its own edits; and the last publication of a document describes it
      as it is, or, if there is none, the document is as it was. */
  lemma {:induction false} SessionSound(s: Session, batches: seq<seq<Message>>, e: L.Encoding, u: Uri)
    requires NoExit(batches)
    ensures AnswerIds(SentOver(s, batches, e)) == RequestsOver(batches)
    ensures DocOf(SessionAfter(s, batches, e), u) == ReplayOver(s, u, batches, e)
    ensures var last := LastPublished(SentOver(s, batches, e), u);
            if last.Some? then last.value == Described(SessionAfter(s, batches, e), u)
            else DocOf(SessionAfter(s, batches, e), u) == DocOf(s, u)
    decreases |batches|
  {
    if batches != [] {
      var n := |batches| - 1;
      var before, ms := SessionAfter(s, batches[..n], e), batches[n];
      SessionSound(s, batches[..n], e, u);
      OneAnswerEach(before, ms, e);
      AnswersJoined(SentOver(s, batches[..n], e), SentIn(before, ms, e));
      DocumentReplayed(Work(before, [], [], {}), ms, Cancelled(ms), e, u);
      LastJoined(SentOver(s, batches[..n], e), SentIn(before, ms, e), u);
      if u in InBatch(before, ms, e).touched {
        LastDescribes(before, ms, e, u);
      } else {
        BatchUntouched(before, ms, e, u);
        assert Described(InBatch(before, ms, e).s, u) == Described(before, u);
      }
    }
  }

  // ----- The server -----

  class LanguageServer {
    const encoding: L.Encoding
    var documents: map<Uri, Document>
    var shutdownRequested: bool
    var sent: seq<Sent>

    ghost predicate Valid()
      reads this
    {
      forall u :: u in documents ==> Fresh(documents[u])
    }

    ghost function View(): Session
      reads this
    {
      Session(map u | u in documents :: Text(documents[u].text, documents[u].version), shutdownRequested)
    }

    constructor (encoding: L.Encoding)
      ensures Valid() && this.encoding == encoding && View() == Session(map[], false) && sent == []
    {
      this.encoding := encoding;
      documents, shutdownRequested, sent := map[], false, [];
    }

    method AnswerRequest(id: Id, ask: Ask)
      requires Valid()
      modifies this
      ensures Valid() && sent == old(sent) + [Answer(id, Reply(old(View()), ask))]
      ensures View() == old(View()).(down := old(View()).down || ask.Shutdown?)
    {
      if shutdownRequested {
        sent := sent + [Answer(id, Failed(InvalidRequest))];
        return;
      }
      match ask {
        case Shutdown =>
          shutdownRequested := true;
          sent := sent + [Answer(id, Done)];
        case Symbols(uri) =>
          var of := ReadParse(uri);
          sent := sent + [Answer(id, Read(of))];
        case Folds(uri) =>
          var of := ReadTokens(uri);
          sent := sent + [Answer(id, Read(of))];
        case BadParams => sent := sent + [Answer(id, Failed(InvalidParams))];
        case Unknown => sent := sent + [Answer(id, Failed(MethodNotFound))];
      }
    }

    method ReadParse(uri: Uri) returns (of: Option<string>)
      requires Valid()
      modifies this`documents
      ensures Valid() && View() == old(View()) && of == TextOf(View(), uri)
    {
      if uri !in documents {
        return None;
      }
      var doc, text := Parse(documents[uri]);
      documents := documents[uri := doc];
      of := Some(text);
      assert View().docs == old(View()).docs;
    }

    method ReadTokens(uri: Uri) returns (of: Option<string>)
      requires Valid()
      modifies this`documents
      ensures Valid() && View() == old(View()) && of == TextOf(View(), uri)
    {
      if uri !in documents {
        return None;
      }
      var doc, text := Lex(documents[uri]);
      documents := documents[uri := doc];
      of := Some(text);
      assert View().docs == old(View()).docs;
    }

    /** A notification other than `exit`, where `w` is the batch so far. */
    method TakeNote(n: Note, changed: seq<Uri>, ghost w: Work, ghost base: seq<Sent>) returns (changed': seq<Uri>)
      requires Valid() && w.s == View() && w.changed == changed && sent == base + w.sent
      modifies this
      ensures Valid() && View() == Noted(w, n, encoding).s && changed' == Noted(w, n, encoding).changed
      ensures sent == base + Noted(w, n, encoding).sent
    {
      hide Fresh, EditedAll, Refusals, Marked, Without;
      changed' := changed;
      if shutdownRequested {
        return;
      }
      match n {
        case Opened(uri, version, text) =>
          if uri in documents {
            sent := sent + [Log];
          }
          var doc := Documents.Open(text, version);
          documents := documents[uri := doc];
          assert View().docs == w.s.docs[uri := Text(text, version)];
          changed' := Mark(changed, uri);
        case Changed(uri, version, changes) =>
          if uri !in documents {
            sent := sent + [Log];
            return;
          }
          changed' := ChangeDocument(uri, version, changes, changed, w, base);
        case Closed(uri) =>
          documents := documents - {uri};
          assert View().docs == w.s.docs - {uri};
          changed' := Drop(changed, uri);
          sent := sent + [Publish(uri, None, None)];
        case Malformed => sent := sent + [Log];
        case _ =>
      }
    }

    method ChangeDocument(uri: Uri, version: int, changes: seq<Change>, changed: seq<Uri>, ghost w: Work,
            ghost base: seq<Sent>) returns (changed': seq<Uri>)
      requires Valid() && w.s == View() && w.changed == changed && sent == base + w.sent && uri in documents
               && !shutdownRequested
      modifies this
      ensures Valid() && View() == Noted(w, Changed(uri, version, changes), encoding).s
      ensures changed' == Noted(w, Changed(uri, version, changes), encoding).changed
      ensures sent == base + Noted(w, Changed(uri, version, changes), encoding).sent
    {
      hide EditedAll, Refusals, Marked;
      var doc, refused := ApplyAll(documents[uri], encoding, changes);
      documents := documents[uri := doc.(version := version)];
      assert View().docs == w.s.docs[uri := Text(doc.text, version)];
      changed' := Mark(changed, uri);
      sent := sent + seq(refused, _ => Log);
    }

    method Batch(ms: seq<Message>) returns (ended: Option<Ended>)
      requires Valid()
      modifies this
      ensures Valid() && View() == InBatch(old(View()), ms, encoding).s
      ensures sent == old(sent) + SentIn(old(View()), ms, encoding) && ended == Over(old(View()), ms, encoding)
    {
      var cancelled := Cancelled(ms);
      var changed: seq<Uri> := [];
      ghost var w := Work(View(), [], [], {});
      ghost var before := BeforeExit(ms);
      for i := 0 to |ms|
        invariant Valid() && i <= |before| && w.s == View() && w.changed == changed && sent == old(sent) + w.sent
        invariant HandleAll(w, before[i..], cancelled, encoding) == InBatch(old(View()), ms, encoding)
      {
        if IsExit(ms[i]) {
          assert before[i..] == [];
          return Some(if shutdownRequested then AfterShutdown else WithoutShutdown);
        }
        assert i < |before| && before[i] == ms[i];
        assert before[i..][0] == ms[i] && before[i..][1..] == before[i + 1..];
        match ms[i] {
          case Request(id, ask) =>
            if id in cancelled {
              sent := sent + [Answer(id, Failed(Canceled))];
            } else {
              AnswerRequest(id, ask);
            }
          case Notification(n) => changed := TakeNote(n, changed, w, old(sent));
          case Response =>
        }
        w := Handle(w, ms[i], cancelled, encoding);
      }
      assert before == ms && before[|ms|..] == [];
      PublishAll(changed);
      return None;
    }

    method PublishAll(changed: seq<Uri>)
      requires Valid()
      modifies this
      ensures Valid() && View() == old(View()) && sent == old(sent) + Publications(View(), changed)
    {
      for i := 0 to |changed|
        invariant Valid() && View() == old(View())
        invariant sent + Publications(View(), changed[i..]) == old(sent) + Publications(View(), changed)
      {
        hide Publications;
        var uri := changed[i];
        PublicationsNext(View(), changed, i, sent);
        if uri in documents {
          var of := ReadParse(uri);
          sent := sent + [Publish(uri, Some(documents[uri].version), of)];
        }
      }
      assert changed[|changed|..] == [] && sent + [] == sent;
    }
  }

  lemma PublicationsNext(s: Session, changed: seq<Uri>, i: nat, sent: seq<Sent>)
    requires i < |changed|
    ensures var u := changed[i];
            var own := if u in s.docs then [Publish(u, Some(s.docs[u].version), Some(s.docs[u].text))] else [];
            sent + Publications(s, changed[i..]) == (sent + own) + Publications(s, changed[i + 1..])
  {
    assert changed[i..][1..] == changed[i + 1..];
  }

  /** Lists a document, once: those listed stay where they are. */
  method Mark(changed: seq<Uri>, uri: Uri) returns (r: seq<Uri>)
    ensures changed <= r && forall u :: u in r <==> u in changed || u == uri
    ensures NoRepeats(changed) ==> NoRepeats(r)
    ensures r == Marked(changed, uri)
  {
    r := if uri in changed then changed else changed + [uri];
  }

  method Drop(changed: seq<Uri>, uri: Uri) returns (r: seq<Uri>)
    ensures r == Without(changed, uri)
  {
    r := [];
    for i := 0 to |changed|
      invariant r + Without(changed[i..], uri) == Without(changed, uri)
    {
      hide Without;
      WithoutNext(changed, uri, i, r);
      if changed[i] != uri {
        r := r + [changed[i]];
      }
    }
    assert changed[|changed|..] == [] && r + [] == r;
  }

  lemma WithoutNext(changed: seq<Uri>, uri: Uri, i: nat, r: seq<Uri>)
    requires i < |changed|
    ensures r + Without(changed[i..], uri) == (if changed[i] != uri then r + [changed[i]] else r)
            + Without(changed[i + 1..], uri)
  {
    assert changed[i..][1..] == changed[i + 1..];
  }
}
