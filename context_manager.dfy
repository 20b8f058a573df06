/**
  The per-user context store of the agent: question/answer pairs and
  documents accumulated for each user, rendered into one bounded text block
  that the orchestrator puts in front of a task prompt.
 */
module Context {

  type UserId = string

  /** Longest formatted context block kept before truncation (`maxContextLength`). */
  const MaxContextLength: nat := 8000

  /** Appended after a cut made at a line boundary. */
  const TruncationMarker: string := "\n[Context truncated...]"

  const QAHeader: string := "=== Q&A Context ===\n"
  const DocumentHeader: string := "=== Document Context ===\n"

  datatype QAEntry = QAEntry(question: string, answer: string)
  datatype DocumentEntry = DocumentEntry(title: string, content: string)

  /** Everything stored for one user, in insertion order. */
  datatype UserContext = UserContext(qa: seq<QAEntry>, documents: seq<DocumentEntry>)

  const EmptyContext: UserContext := UserContext([], [])

  /** The `data` object of a store request; which fields are read depends on the kind. */
  datatype ContextPayload = ContextPayload(question: string, answer: string, title: string, content: string)

  /** A store request: `kind` is the request's `type` string, not restricted here. */
  datatype ContextData = ContextData(kind: string, data: ContextPayload)

  // ---------------------------------------------------------------------------
  // Storing

  /** The user's record after one store request. */
  function AddEntry(ctx: UserContext, d: ContextData): (r: UserContext)
    ensures d.kind == "qa" ==>
      r.qa == ctx.qa + [QAEntry(d.data.question, d.data.answer)] && r.documents == ctx.documents
    ensures d.kind == "document" ==>
      r.documents == ctx.documents + [DocumentEntry(d.data.title, d.data.content)] && r.qa == ctx.qa
    ensures d.kind != "qa" && d.kind != "document" ==> r == ctx
  {
    if d.kind == "qa" then
      ctx.(qa := ctx.qa + [QAEntry(d.data.question, d.data.answer)])
    else if d.kind == "document" then
      ctx.(documents := ctx.documents + [DocumentEntry(d.data.title, d.data.content)])
    else
      ctx
  }

  /** The record obtained by applying a sequence of store requests in order. */
  function ApplyStores(ctx: UserContext, ds: seq<ContextData>): UserContext
  {
    if ds == [] then ctx else AddEntry(ApplyStores(ctx, ds[..|ds| - 1]), ds[|ds| - 1])
  }

  /** The Q&A entries a sequence of requests carries, in request order. */
  function QAEntriesOf(ds: seq<ContextData>): seq<QAEntry>
  {
    if ds == [] then []
    else
      var last := ds[|ds| - 1];
      QAEntriesOf(ds[..|ds| - 1]) + (if last.kind == "qa" then [QAEntry(last.data.question, last.data.answer)] else [])
  }

  /** The document entries a sequence of requests carries, in request order. */
  function DocumentEntriesOf(ds: seq<ContextData>): seq<DocumentEntry>
  {
    if ds == [] then []
    else
      var last := ds[|ds| - 1];
      DocumentEntriesOf(ds[..|ds| - 1]) + (if last.kind == "document" then [DocumentEntry(last.data.title, last.data.content)] else [])
  }

  /** Number of requests of the given kind. */
  function CountKind(ds: seq<ContextData>, kind: string): nat
  {
    if ds == [] then 0
    else CountKind(ds[..|ds| - 1], kind) + (if ds[|ds| - 1].kind == kind then 1 else 0)
  }

  /**
    Any sequence of stores appends exactly the carried entries, in call order,
    to the lists already there; each list grows by the number of requests of
    its kind.
   */
  lemma {:induction false} StoresAppendInOrder(ctx: UserContext, ds: seq<ContextData>)
    ensures ApplyStores(ctx, ds).qa == ctx.qa + QAEntriesOf(ds)
    ensures ApplyStores(ctx, ds).documents == ctx.documents + DocumentEntriesOf(ds)
    ensures |ApplyStores(ctx, ds).qa| == |ctx.qa| + CountKind(ds, "qa")
    ensures |ApplyStores(ctx, ds).documents| == |ctx.documents| + CountKind(ds, "document")
  {
    if ds != [] {
      var init := ds[..|ds| - 1];
      StoresAppendInOrder(ctx, init);
      var last := ds[|ds| - 1];
      if last.kind == "qa" {
        assert ApplyStores(ctx, ds).qa == ctx.qa + QAEntriesOf(init) + [QAEntry(last.data.question, last.data.answer)];
      } else if last.kind == "document" {
        assert ApplyStores(ctx, ds).documents == ctx.documents + DocumentEntriesOf(init) + [DocumentEntry(last.data.title, last.data.content)];
      }
    }
  }

  // ---------------------------------------------------------------------------
  // Rendering

  function QAItem(e: QAEntry): string
  {
    "Q: " + e.question + "\nA: " + e.answer + "\n\n"
  }

  function DocumentItem(d: DocumentEntry): string
  {
    "Title: " + d.title + "\nContent: " + d.content + "\n\n"
  }

  /** The items of `entries` rendered one after the other, as a `forEach` loop appends them. */
  function RenderEach<T>(entries: seq<T>, item: T -> string): string
  {
    if entries == [] then "" else RenderEach(entries[..|entries| - 1], item) + item(entries[|entries| - 1])
  }

  /** A labelled section: the header and the items, or nothing for an empty list. */
  function Section<T>(header: string, entries: seq<T>, item: T -> string): string
  {
    if |entries| > 0 then header + RenderEach(entries, item) else ""
  }

  /** The whole context block before truncation: Q&A section, then document section. */
  function Render(ctx: UserContext): string
  {
    Section(QAHeader, ctx.qa, QAItem) + Section(DocumentHeader, ctx.documents, DocumentItem)
  }

  /** Rendering distributes over concatenation: entries keep their order and are never merged. */
  lemma {:induction false} RenderEachConcat<T>(a: seq<T>, b: seq<T>, item: T -> string)
    ensures RenderEach(a + b, item) == RenderEach(a, item) + RenderEach(b, item)
    decreases |b|
  {
    if b == [] {
      assert a + b == a;
    } else {
      var b' := b[..|b| - 1];
      assert (a + b)[..|a + b| - 1] == a + b';
      RenderEachConcat(a, b', item);
    }
  }

  /**
    Entry `i` is rendered exactly once, after every earlier entry and before
    every later one.
   */
  lemma EntryRenderedInPlace<T>(entries: seq<T>, i: nat, item: T -> string)
    requires i < |entries|
    ensures RenderEach(entries, item) ==
      RenderEach(entries[..i], item) + item(entries[i]) + RenderEach(entries[i + 1..], item)
  {
    assert entries == entries[..i + 1] + entries[i + 1..];
    RenderEachConcat(entries[..i + 1], entries[i + 1..], item);
    RenderPrefixStep(entries, i, item);
  }

  /** One more step of a left-to-right rendering loop. */
  lemma RenderPrefixStep<T>(entries: seq<T>, i: nat, item: T -> string)
    requires i < |entries|
    ensures RenderEach(entries[..i + 1], item) == RenderEach(entries[..i], item) + item(entries[i])
  {
    assert entries[..i + 1][..i] == entries[..i];
  }

  /** The rendered block is empty exactly when the user has no entries at all. */
  lemma RenderEmptyIff(ctx: UserContext)
    ensures Render(ctx) == "" <==> ctx.qa == [] && ctx.documents == []
  {
    if ctx.qa != [] {
      assert |Render(ctx)| >= |QAHeader|;
    } else if ctx.documents != [] {
      assert |Render(ctx)| >= |DocumentHeader|;
    }
  }

  /**
    The Q&A section comes first and the document section follows it: the block
    opens with the header of the first non-empty list, and the document header
    starts right after the last Q&A item.
   */
  lemma SectionOrder(ctx: UserContext)
    ensures ctx.qa != [] ==> Render(ctx)[..|QAHeader|] == QAHeader
    ensures ctx.qa == [] && ctx.documents != [] ==> Render(ctx)[..|DocumentHeader|] == DocumentHeader
    ensures ctx.documents != [] ==>
      var start := |Section(QAHeader, ctx.qa, QAItem)|;
      start + |DocumentHeader| <= |Render(ctx)| &&
      Render(ctx)[start..start + |DocumentHeader|] == DocumentHeader
  {
  }

  /**
    Storing one entry changes the rendered block only by inserting that
    entry's item at the end of its own section, creating the section if it was
    empty; the other section is untouched.
   */
  lemma RenderAfterStore(ctx: UserContext, d: ContextData)
    ensures d.kind == "qa" ==> (Render(AddEntry(ctx, d)) ==
      (if ctx.qa == [] then QAHeader else Section(QAHeader, ctx.qa, QAItem))
      + QAItem(QAEntry(d.data.question, d.data.answer))
      + Section(DocumentHeader, ctx.documents, DocumentItem))
    ensures d.kind == "document" ==> (Render(AddEntry(ctx, d)) ==
      Section(QAHeader, ctx.qa, QAItem)
      + (if ctx.documents == [] then DocumentHeader else Section(DocumentHeader, ctx.documents, DocumentItem))
      + DocumentItem(DocumentEntry(d.data.title, d.data.content)))
    ensures d.kind != "qa" && d.kind != "document" ==> Render(AddEntry(ctx, d)) == Render(ctx)
  {
    if d.kind == "qa" {
      SectionAppend(QAHeader, ctx.qa, QAEntry(d.data.question, d.data.answer), QAItem);
    } else if d.kind == "document" {
      SectionAppend(DocumentHeader, ctx.documents, DocumentEntry(d.data.title, d.data.content), DocumentItem);
    }
  }

  /** Appending an entry to a list appends its item to the list's section, opening the section if needed. */
  lemma SectionAppend<T>(header: string, entries: seq<T>, x: T, item: T -> string)
    ensures Section(header, entries + [x], item) ==
      (if entries == [] then header else Section(header, entries, item)) + item(x)
  {
    assert (entries + [x])[..|entries|] == entries;
    assert RenderEach(entries + [x], item) == RenderEach(entries, item) + item(x);
    if entries == [] {
      assert RenderEach(entries, item) + item(x) == item(x);
    }
  }

  // ---------------------------------------------------------------------------
  // Truncation

  /** `s.lastIndexOf(c)`: the last position holding `c`, or -1 when there is none. */
  function LastIndexOf(s: string, c: char): (k: int)
    ensures -1 <= k < |s|
    ensures k >= 0 ==> s[k] == c
    ensures forall j :: k < j < |s| ==> s[j] != c
  {
    if |s| == 0 then -1
    else if s[|s| - 1] == c then |s| - 1
    else LastIndexOf(s[..|s| - 1], c)
  }

  /** No line break in `s[from..to]`. */
  predicate NoNewlineIn(s: string, from: nat, to: nat)
    requires from <= to <= |s|
  {
    forall j :: from <= j < to ==> s[j] != '\n'
  }

  /**
    `truncateContext`: a block within the limit is returned as is; a longer
    one is cut at the last line break inside the first MaxContextLength
    characters and marked, or, when no line break lies after position 0, cut
    hard at the limit without a marker.
   */
  function Truncate(context: string): (r: string)
    ensures |context| <= MaxContextLength ==> r == context
    ensures |context| > MaxContextLength ==>
      forall k :: 0 < k < MaxContextLength && context[k] == '\n' && NoNewlineIn(context, k + 1, MaxContextLength) ==>
        r == context[..k] + TruncationMarker
    ensures |context| > MaxContextLength && NoNewlineIn(context, 1, MaxContextLength) ==>
      r == context[..MaxContextLength]
    ensures |r| <= MaxContextLength - 1 + |TruncationMarker|
  {
    if |context| <= MaxContextLength then context
    else
      var truncated := context[..MaxContextLength];
      var lastNewline := LastIndexOf(truncated, '\n');
      if lastNewline > 0 then truncated[..lastNewline] + TruncationMarker else truncated
  }

  /**
    Whatever is cut, the result begins with a prefix of the input, and what
    follows that prefix is either nothing or the marker, placed where the
    input had a line break.
   */
  lemma TruncateKeepsPrefix(context: string)
    ensures exists k :: (0 <= k <= |context| && k <= MaxContextLength &&
      (Truncate(context) == context[..k] ||
       (k < |context| && context[k] == '\n' && Truncate(context) == context[..k] + TruncationMarker)))
  {
    if |context| <= MaxContextLength {
      assert Truncate(context) == context[..|context|];
    } else {
      var truncated := context[..MaxContextLength];
      var k := LastIndexOf(truncated, '\n');
      if k > 0 {
        assert truncated[..k] == context[..k];
        assert context[k] == truncated[k];
      } else {
        assert Truncate(context) == context[..MaxContextLength];
      }
    }
  }

  /** Truncation never turns a non-empty block into an empty one. */
  lemma TruncateEmptyIff(context: string)
    ensures Truncate(context) == "" <==> context == ""
  {
    if |context| > MaxContextLength {
      var k := LastIndexOf(context[..MaxContextLength], '\n');
      assert |Truncate(context)| >= |TruncationMarker| || |Truncate(context)| == MaxContextLength;
    }
  }

  /** The text `formatContextForPrompt` returns for a record. */
  function FormattedContext(ctx: UserContext): string
  {
    Truncate(Render(ctx))
  }

  /** No entries means no context text, and any entry means some context text. */
  lemma FormattedEmptyIff(ctx: UserContext)
    ensures FormattedContext(ctx) == "" <==> ctx.qa == [] && ctx.documents == []
  {
    RenderEmptyIff(ctx);
    TruncateEmptyIff(Render(ctx));
  }

  // ---------------------------------------------------------------------------
  // Users

  /** `s` without any occurrence of `u`, other elements in their order. */
  function RemoveUser(s: seq<UserId>, u: UserId): (r: seq<UserId>)
    ensures u !in r
    ensures forall v :: v != u ==> (v in r <==> v in s)
    ensures |r| <= |s|
    ensures u !in s ==> r == s
  {
    if s == [] then []
    else if s[|s| - 1] == u then RemoveUser(s[..|s| - 1], u)
    else RemoveUser(s[..|s| - 1], u) + [s[|s| - 1]]
  }

  /** Removal works piecewise, so the users that remain keep their relative order. */
  lemma {:induction false} RemoveUserConcat(a: seq<UserId>, b: seq<UserId>, u: UserId)
    ensures RemoveUser(a + b, u) == RemoveUser(a, u) + RemoveUser(b, u)
  {
    if b == [] {
      assert a + b == a;
    } else {
      var init := b[..|b| - 1];
      assert (a + b)[..|a + b| - 1] == a + init;
      RemoveUserConcat(a, init, u);
    }
  }

  /** Removing a user twice is the same as removing it once. */
  lemma {:induction false} RemoveUserIdempotent(s: seq<UserId>, u: UserId)
    ensures RemoveUser(RemoveUser(s, u), u) == RemoveUser(s, u)
  {
    if s != [] {
      RemoveUserIdempotent(s[..|s| - 1], u);
      if s[|s| - 1] != u {
        var r := RemoveUser(s[..|s| - 1], u) + [s[|s| - 1]];
        assert r[..|r| - 1] == RemoveUser(s[..|s| - 1], u);
      }
    }
  }

  /** Removing a user from a list without repetitions leaves one without repetitions. */
  lemma {:induction false} RemoveUserKeepsDistinct(s: seq<UserId>, u: UserId)
    requires Distinct(s)
    ensures Distinct(RemoveUser(s, u))
  {
    if s != [] {
      var init := s[..|s| - 1];
      assert Distinct(init);
      RemoveUserKeepsDistinct(init, u);
      if s[|s| - 1] != u {
        assert s[|s| - 1] !in init;
      }
    }
  }

  predicate Distinct(s: seq<UserId>)
  {
    forall i, j :: 0 <= i < j < |s| ==> s[i] != s[j]
  }

  // ---------------------------------------------------------------------------
  // The store object

  /** A `forEach` loop that appends the item of every entry to `text`, in order. */
  method AppendEach<T>(text: string, entries: seq<T>, item: T -> string) returns (r: string)
    ensures r == text + RenderEach(entries, item)
  {
    r := text;
    var i := 0;
    while i < |entries|
      invariant 0 <= i <= |entries|
      invariant r == text + RenderEach(entries[..i], item)
    {
      RenderPrefixStep(entries, i, item);
      r := r + item(entries[i]);
      i := i + 1;
    }
    assert entries[..i] == entries;
  }

  /**
    `ContextManager`: one record per user, created on the first store. A
    JavaScript Map also remembers the order in which its keys were first
    inserted, which is what `getAllUsers` returns; `userOrder` holds it.
   */
  class ContextManager {
    var userContexts: map<UserId, UserContext>
    var userOrder: seq<UserId>

    ghost predicate Valid()
      reads this
    {
      && Distinct(userOrder)
      && (forall u :: u in userContexts <==> u in userOrder)
    }

    constructor ()
      ensures Valid()
      ensures userContexts == map[] && userOrder == []
    {
      userContexts := map[];
      userOrder := [];
    }

    /**
      `storeContext`: creates the user's empty record on first use, then
      appends one entry of the requested kind. An unknown kind still creates
      the record and still reports success.
     */
    method StoreContext(userId: UserId, contextData: ContextData) returns (success: bool)
      requires Valid()
      modifies this
      ensures Valid()
      ensures success
      ensures userContexts == old(userContexts)[userId := AddEntry(old(GetContext(userId)), contextData)]
      ensures userOrder == if userId in old(userContexts) then old(userOrder) else old(userOrder) + [userId]
    {
      if userId !in userContexts {
        userContexts := userContexts[userId := EmptyContext];
        userOrder := userOrder + [userId];
      }
      var userContext := userContexts[userId];
      if contextData.kind == "qa" {
        userContext := userContext.(qa := userContext.qa + [QAEntry(contextData.data.question, contextData.data.answer)]);
      } else if contextData.kind == "document" {
        userContext := userContext.(documents := userContext.documents + [DocumentEntry(contextData.data.title, contextData.data.content)]);
      }
      userContexts := userContexts[userId := userContext];
      success := true;
    }

    /** `getContext`: never fails; an unknown user has the empty record. */
    function GetContext(userId: UserId): (c: UserContext)
      reads this
      ensures userId in userContexts ==> c == userContexts[userId]
      ensures userId !in userContexts ==> c.qa == [] && c.documents == []
    {
      if userId in userContexts then userContexts[userId] else EmptyContext
    }

    /**
      `formatContextForPrompt`: builds the block section by section with one
      loop per list, then truncates it.
     */
    method FormatContextForPrompt(userId: UserId) returns (formatted: string)
      ensures formatted == FormattedContext(GetContext(userId))
    {
      var context := GetContext(userId);
      var formattedContext := "";

      if |context.qa| > 0 {
        formattedContext := formattedContext + QAHeader;
        formattedContext := AppendEach(formattedContext, context.qa, QAItem);
      }
      if |context.documents| > 0 {
        formattedContext := formattedContext + DocumentHeader;
        formattedContext := AppendEach(formattedContext, context.documents, DocumentItem);
      }
      assert formattedContext == Render(context);

      formatted := Truncate(formattedContext);
    }

    /** `getAllUsers`: every user with a record, once each, in first-insertion order. */
    function GetAllUsers(): (users: seq<UserId>)
      reads this
      ensures Valid() ==> Distinct(users) && forall u :: u in users <==> u in userContexts
    {
      userOrder
    }

    /**
      `clearContext`: drops the user's record whether or not it exists and
      always reports success.
     */
    method ClearContext(userId: UserId) returns (success: bool)
      requires Valid()
      modifies this
      ensures Valid()
      ensures success
      ensures userContexts == old(userContexts) - {userId}
      ensures userOrder == RemoveUser(old(userOrder), userId)
    {
      RemoveUserKeepsDistinct(userOrder, userId);
      userContexts := userContexts - {userId};
      userOrder := RemoveUser(userOrder, userId);
      success := true;
    }
  }
}
