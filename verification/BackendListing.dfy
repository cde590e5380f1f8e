/**
 Paginated listing (`_list` in scripts/poc_backend_observer.py): the keys under a prefix, asked for page by
 page from a server that may answer anything and whose contents change between requests.
 */
module BackendListing {
  import opened Options
  import opened Texts
  import opened Json

  const MAX_REQUESTS: nat := 20

  /**
   One answer. `keys` are the `Key` fields of the listed rows, `next` the continuation token (null when
   absent); a failed request is no page.
   */
  datatype Page = NoPage | Page(truncated: Option<bool>, keys: seq<Value>, next: Value)

  /** The answer to a request made at a moment, with or without a continuation token. */
  type Lister = (nat, Option<Text>) -> Page

  // ---------------------------------------------------------------- the conversation

  /** The token sent with request `n` of a listing begun at `t`. */
  function Token(lister: Lister, t: nat, n: nat): Option<Text>
    decreases n, 0
  {
    if n == 0 then None
    else
      var page := PageAt(lister, t, n - 1);
      if page.Page? && page.next.Str? then Some(page.next.s) else None
  }

  function PageAt(lister: Lister, t: nat, n: nat): Page
    decreases n, 1
  {
    lister(t + n, Token(lister, t, n))
  }

  function KeysOf(page: Page): seq<Value> {
    if page.Page? then page.keys else []
  }

  /** Every key of the first `n` pages, in the order received. */
  function Listed(lister: Lister, t: nat, n: nat): seq<Value> {
    if n == 0 then [] else Listed(lister, t, n - 1) + KeysOf(PageAt(lister, t, n - 1))
  }

  predicate TokenOk(v: Value) {
    v.Str? && 0 < |v.s| <= 4096
  }

  predicate PageOk(page: Page) {
    page.Page? && page.truncated.Some? && |page.keys| <= 1000
    && (if page.truncated.value then TokenOk(page.next) else !Truthy(page.next))
  }

  predicate KeysOk(keys: seq<Value>, prefix: Text) {
    && (forall i :: 0 <= i < |keys| ==> keys[i].Str? && prefix <= keys[i].s)
    && (forall i, j :: 0 <= i < j < |keys| ==> keys[i] != keys[j])
  }

  /** No continuation token is offered twice. */
  predicate TokensFresh(lister: Lister, t: nat, n: nat) {
    forall i, j :: 1 <= i < j <= n ==> Token(lister, t, i) != Token(lister, t, j)
  }

  /** The first `n` pages are sound, and all are truncated. */
  predicate Continues(lister: Lister, prefix: Text, t: nat, n: nat) {
    && (forall i :: 0 <= i < n ==> PageOk(PageAt(lister, t, i)) && PageAt(lister, t, i).truncated.value)
    && KeysOk(Listed(lister, t, n), prefix)
    && TokensFresh(lister, t, n)
  }

  /** The listing ends with request number `n`. */
  predicate Finishes(lister: Lister, prefix: Text, t: nat, n: nat) {
    && 1 <= n <= MAX_REQUESTS
    && Continues(lister, prefix, t, n - 1)
    && PageOk(PageAt(lister, t, n - 1)) && !PageAt(lister, t, n - 1).truncated.value
    && KeysOk(Listed(lister, t, n), prefix)
  }

  lemma {:induction false} KeysPrefix(keys: seq<Value>, more: seq<Value>, prefix: Text)
    requires KeysOk(keys + more, prefix)
    ensures KeysOk(keys, prefix)
  {
    forall i | 0 <= i < |keys| ensures (keys + more)[i] == keys[i] {
    }
  }

  lemma {:induction false} ListedPrefix(lister: Lister, prefix: Text, t: nat, n: nat, m: nat)
    requires n <= m && KeysOk(Listed(lister, t, m), prefix)
    ensures KeysOk(Listed(lister, t, n), prefix)
    decreases m
  {
    hide KeysOk;
    if n < m {
      KeysPrefix(Listed(lister, t, m - 1), KeysOf(PageAt(lister, t, m - 1)), prefix);
      ListedPrefix(lister, prefix, t, n, m - 1);
    }
  }

  // ---------------------------------------------------------------- the loop

  function KeySet(keys: seq<Value>): set<Text> {
    set i | 0 <= i < |keys| && keys[i].Str? :: keys[i].s
  }

  /** The keys of one page, each new and under the prefix. */
  method AddKeys(found: set<Text>, rows: seq<Value>, prefix: Text, ghost before: seq<Value>)
    returns (keys: set<Text>, ok: bool)
    requires KeysOk(before, prefix) && found == KeySet(before) && |found| == |before|
    ensures ok <==> KeysOk(before + rows, prefix)
    ensures ok ==> keys == KeySet(before + rows) && |keys| == |before + rows|
  {
    keys := found;
    assert before + rows[..0] == before;
    for i := 0 to |rows|
      invariant KeysOk(before + rows[..i], prefix)
      invariant keys == KeySet(before + rows[..i]) && |keys| == |before + rows[..i]|
    {
      ghost var soFar := before + rows[..i];
      assert before + rows[..i + 1] == soFar + [rows[i]];
      AddKey(soFar, rows[i], prefix);
      if !rows[i].Str? || !(prefix <= rows[i].s) || rows[i].s in keys {
        if KeysOk(before + rows, prefix) {
          assert before + rows == (soFar + [rows[i]]) + rows[i + 1..];
          KeysPrefix(soFar + [rows[i]], rows[i + 1..], prefix);
        }
        return keys, false;
      }
      keys := keys + {rows[i].s};
    }
    assert rows[..|rows|] == rows;
    return keys, true;
  }

  lemma {:induction false} AddKey(keys: seq<Value>, key: Value, prefix: Text)
    requires KeysOk(keys, prefix)
    ensures KeysOk(keys + [key], prefix) <==> key.Str? && prefix <= key.s && key.s !in KeySet(keys)
    ensures key.Str? ==> KeySet(keys + [key]) == KeySet(keys) + {key.s}
  {
    var all := keys + [key];
    assert all[|keys|] == key && forall i :: 0 <= i < |keys| ==> all[i] == keys[i];
    if key.Str? && key.s in KeySet(keys) {
      var i :| 0 <= i < |keys| && keys[i].Str? && keys[i].s == key.s;
      assert all[i] == all[|keys|];
    }
    if key.Str? {
      forall k | k in KeySet(keys) + {key.s} ensures k in KeySet(all) {
        if k == key.s {
          assert all[|keys|].s == k;
        } else {
          var i :| 0 <= i < |keys| && keys[i].Str? && keys[i].s == k;
          assert all[i].s == k;
        }
      }
    }
  }

  lemma {:induction false} NothingListed(lister: Lister, prefix: Text, t: nat)
    ensures Continues(lister, prefix, t, 0) && Listed(lister, t, 0) == [] && KeySet([]) == {}
  {
  }

  lemma {:induction false} NotFinished(lister: Lister, prefix: Text, t: nat, n: nat, m: nat)
    requires Continues(lister, prefix, t, n)
    requires !PageOk(PageAt(lister, t, n)) || !KeysOk(Listed(lister, t, n + 1), prefix)
      || (PageAt(lister, t, n).truncated.value && !TokensFresh(lister, t, n + 1))
    ensures !Finishes(lister, prefix, t, m)
  {
    hide PageOk, KeysOk, PageAt, Listed;
    if Finishes(lister, prefix, t, m) {
      if m > n {
        ListedPrefix(lister, prefix, t, n + 1, m);
      }
    }
  }

  lemma {:induction false} ContinuesOn(lister: Lister, prefix: Text, t: nat, n: nat)
    requires Continues(lister, prefix, t, n) && PageOk(PageAt(lister, t, n)) && PageAt(lister, t, n).truncated.value
    requires KeysOk(Listed(lister, t, n + 1), prefix) && TokensFresh(lister, t, n + 1)
    ensures Continues(lister, prefix, t, n + 1)
  {
  }

  lemma {:induction false} FreshToken(lister: Lister, t: nat, n: nat, tokens: set<Text>)
    requires TokensFresh(lister, t, n)
    requires forall k :: k in tokens <==> exists i :: 1 <= i <= n && Token(lister, t, i) == Some(k)
    requires Token(lister, t, n + 1).Some?
    ensures TokensFresh(lister, t, n + 1) <==> Token(lister, t, n + 1).value !in tokens
  {
  }

  /**
   `_list`: the sorted keys of all pages up to the first that is not truncated, after at most twenty
   requests, or nothing if any page, key or token is unsound or the pages do not end.
   */
  method ListPages(lister: Lister, prefix: Text, t: nat) returns (r: Option<seq<Text>>, calls: nat)
    ensures 1 <= calls <= MAX_REQUESTS
    ensures r.Some? <==> exists n :: Finishes(lister, prefix, t, n)
    ensures r.Some? ==> Finishes(lister, prefix, t, calls)
    ensures r.Some? ==>
      r.value == Sorted(KeySet(Listed(lister, t, calls))) && |r.value| == |Listed(lister, t, calls)|
  {
    hide PageOk, KeysOk, TokensFresh, KeySet, Continues, Listed, Finishes, Token;
    var keys: set<Text>, tokens: set<Text>, token: Option<Text> := {}, {}, None;
    calls := 0;
    NothingListed(lister, prefix, t);
    assert TokensFresh(lister, t, 0) && Token(lister, t, 0) == None by {
      StartFresh(lister, t);
    }
    while calls < MAX_REQUESTS
      invariant calls <= MAX_REQUESTS
      invariant Continues(lister, prefix, t, calls) && TokensFresh(lister, t, calls)
      invariant keys == KeySet(Listed(lister, t, calls)) && |keys| == |Listed(lister, t, calls)|
      invariant token == Token(lister, t, calls)
      invariant forall k :: k in tokens <==> exists i :: 1 <= i <= calls && Token(lister, t, i) == Some(k)
    {
      var page := lister(t + calls, token);
      assert page == PageAt(lister, t, calls);
      ghost var n := calls;
      calls := calls + 1;
      if !PageOk(page) {
        forall m ensures !Finishes(lister, prefix, t, m) {
          NotFinished(lister, prefix, t, n, m);
        }
        return None, calls;
      }
      var ok;
      ContinuesKeys(lister, prefix, t, n);
      keys, ok := AddKeys(keys, KeysOf(page), prefix, Listed(lister, t, n));
      assert Listed(lister, t, calls) == Listed(lister, t, n) + KeysOf(page) by {
        ListedNext(lister, t, n);
      }
      if !ok {
        forall m ensures !Finishes(lister, prefix, t, m) {
          NotFinished(lister, prefix, t, n, m);
        }
        return None, calls;
      }
      TokenNext(lister, t, n);
      if !page.truncated.value {
        FinishesHere(lister, prefix, t, calls);
        return Some(Sorted(keys)), calls;
      }
      FreshToken(lister, t, n, tokens);
      if page.next.s in tokens {
        forall m ensures !Finishes(lister, prefix, t, m) {
          NotFinished(lister, prefix, t, n, m);
        }
        return None, calls;
      }
      ContinuesOn(lister, prefix, t, n);
      token := Some(page.next.s);
      tokens := tokens + {page.next.s};
    }
    forall m ensures !Finishes(lister, prefix, t, m) {
      NeverEnds(lister, prefix, t, m);
    }
    return None, calls;
  }

  lemma {:induction false} StartFresh(lister: Lister, t: nat)
    ensures TokensFresh(lister, t, 0) && Token(lister, t, 0) == None
  {
  }

  lemma {:induction false} ContinuesKeys(lister: Lister, prefix: Text, t: nat, n: nat)
    requires Continues(lister, prefix, t, n)
    ensures KeysOk(Listed(lister, t, n), prefix)
  {
  }

  lemma {:induction false} ListedNext(lister: Lister, t: nat, n: nat)
    ensures Listed(lister, t, n + 1) == Listed(lister, t, n) + KeysOf(PageAt(lister, t, n))
  {
  }

  lemma {:induction false} TokenNext(lister: Lister, t: nat, n: nat)
    requires PageOk(PageAt(lister, t, n))
    ensures var page := PageAt(lister, t, n);
      page.Page? && page.truncated.Some?
      && (page.truncated.value ==> page.next.Str? && Token(lister, t, n + 1) == Some(page.next.s))
  {
  }

  lemma {:induction false} FinishesHere(lister: Lister, prefix: Text, t: nat, n: nat)
    requires 1 <= n <= MAX_REQUESTS && Continues(lister, prefix, t, n - 1) && KeysOk(Listed(lister, t, n), prefix)
    requires PageOk(PageAt(lister, t, n - 1)) && !PageAt(lister, t, n - 1).truncated.value
    ensures Finishes(lister, prefix, t, n)
  {
  }

  /** A listing ends at one request only. */
  lemma {:induction false} FinishesOnce(lister: Lister, prefix: Text, t: nat, n: nat, m: nat)
    requires Finishes(lister, prefix, t, n) && Finishes(lister, prefix, t, m)
    ensures n == m
  {
    hide PageOk, KeysOk, PageAt, Listed, TokensFresh;
  }

  lemma {:induction false} NeverEnds(lister: Lister, prefix: Text, t: nat, m: nat)
    requires Continues(lister, prefix, t, MAX_REQUESTS)
    ensures !Finishes(lister, prefix, t, m)
  {
  }

  // ---------------------------------------------------------------- what absence proves

  /** The key is current when request number `i` is made. */
  ghost predicate CurrentAt(current: nat -> set<Text>, t: nat, i: nat, k: Text) {
    k in current(t + i)
  }

  /**
   A server that lists the keys current when asked, in order, from where its token says to where the next
   token says, whenever it answers at all.
   */
  ghost predicate Honest(
    lister: Lister, prefix: Text, t: nat, n: nat, current: nat -> set<Text>, cursor: Text -> Text)
  {
    forall i, k {:trigger CurrentAt(current, t, i, k)} :: 0 <= i < n ==>
      var token, page := Token(lister, t, i), PageAt(lister, t, i);
      page.Page? ==>
        (k in KeySet(KeysOf(page)) <==>
          && CurrentAt(current, t, i, k) && prefix <= k
          && (token.Some? ==> Below(cursor(token.value), k))
          && (page.truncated == Some(true) && page.next.Str? ==> !Below(cursor(page.next.s), k)))
  }

  lemma {:induction false} ListedKeeps(lister: Lister, t: nat, i: nat, n: nat, k: Text)
    requires i < n
    ensures k in KeySet(KeysOf(PageAt(lister, t, i))) ==> k in KeySet(Listed(lister, t, n))
    decreases n
  {
    TextsAppend(Listed(lister, t, n - 1), KeysOf(PageAt(lister, t, n - 1)));
    if i < n - 1 {
      ListedKeeps(lister, t, i, n - 1, k);
    }
  }

  lemma {:induction false} TextsAppend(a: seq<Value>, b: seq<Value>)
    ensures KeySet(a + b) == KeySet(a) + KeySet(b)
  {
    var all := a + b;
    forall k | k in KeySet(a) ensures k in KeySet(all) {
      var i :| 0 <= i < |a| && a[i].Str? && a[i].s == k;
      assert all[i] == a[i];
    }
    forall k | k in KeySet(b) ensures k in KeySet(all) {
      var i :| 0 <= i < |b| && b[i].Str? && b[i].s == k;
      assert all[|a| + i] == b[i];
    }
  }

  /** A key that stays current is either on a page so far or beyond the cursor. */
  lemma {:induction false} StillAhead(
    lister: Lister, prefix: Text, t: nat, n: nat, current: nat -> set<Text>, cursor: Text -> Text, k: Text, i: nat)
    requires Finishes(lister, prefix, t, n) && Honest(lister, prefix, t, n, current, cursor) && i < n
    requires prefix <= k && forall m :: 0 <= m < n ==> CurrentAt(current, t, m, k)
    ensures k in KeySet(Listed(lister, t, n))
      || (Token(lister, t, i).Some? ==> Below(cursor(Token(lister, t, i).value), k))
  {
    hide KeySet, KeysOk, TokensFresh, Listed;
    if i > 0 {
      StillAhead(lister, prefix, t, n, current, cursor, k, i - 1);
      ListedKeeps(lister, t, i - 1, n, k);
      assert CurrentAt(current, t, i - 1, k);
      TokenNext(lister, t, i - 1);
    }
  }

  /**
   The result of a listing is a proof of absence: a key it lacks was, at the time of some request, not
   current; and a key it has was current at the time of one.
   */
  lemma {:induction false} AbsenceProof(
    lister: Lister, prefix: Text, t: nat, n: nat, current: nat -> set<Text>, cursor: Text -> Text, k: Text)
    requires Finishes(lister, prefix, t, n) && Honest(lister, prefix, t, n, current, cursor) && prefix <= k
    requires k !in KeySet(Listed(lister, t, n))
    ensures exists i :: 0 <= i < n && !CurrentAt(current, t, i, k)
  {
    hide KeySet, KeysOk, TokensFresh, Listed, Token, PageAt;
    if forall i :: 0 <= i < n ==> CurrentAt(current, t, i, k) {
      assert CurrentAt(current, t, n - 1, k);
      StillAhead(lister, prefix, t, n, current, cursor, k, n - 1);
      ListedKeeps(lister, t, n - 1, n, k);
    }
  }

  lemma {:induction false} PresenceProof(
    lister: Lister, prefix: Text, t: nat, n: nat, current: nat -> set<Text>, cursor: Text -> Text, k: Text)
    returns (i: nat)
    requires Honest(lister, prefix, t, n, current, cursor) && k in KeySet(Listed(lister, t, n))
    ensures i < n && CurrentAt(current, t, i, k) && prefix <= k
  {
    TextsAppend(Listed(lister, t, n - 1), KeysOf(PageAt(lister, t, n - 1)));
    var now := CurrentAt(current, t, n - 1, k);
    if k in KeySet(KeysOf(PageAt(lister, t, n - 1))) {
      i := n - 1;
    } else {
      i := PresenceProof(lister, prefix, t, n - 1, current, cursor, k);
    }
  }

  // ---------------------------------------------------------------- whole listings

  /** The pages are the answers to requests that each carry the continuation token of the page before. */
  predicate Conversation(lister: Lister, t: nat, pages: seq<Page>) {
    forall i :: 0 <= i < |pages| ==> Answers(lister, t, pages, i)
  }

  predicate Answers(lister: Lister, t: nat, pages: seq<Page>, i: nat)
    requires i < |pages|
  {
    if i == 0 then pages[0] == lister(t, None)
    else
      && pages[i - 1].Page? && pages[i - 1].next.Str?
      && pages[i] == lister(t + i, Some(pages[i - 1].next.s))
  }

  /** A page of at most a thousand keys; a truncated one has a token, the last one has none. */
  predicate SoundPage(page: Page, last: bool) {
    && page.Page? && page.truncated == Some(!last) && |page.keys| <= 1000
    && (if last then !Truthy(page.next) else page.next.Str? && 1 <= |page.next.s| <= 4096)
  }

  /** Key number `a` of page number `i`. */
  predicate KeyAt(pages: seq<Page>, i: int, a: int, key: Value) {
    0 <= i < |pages| && pages[i].Page? && 0 <= a < |pages[i].keys| && pages[i].keys[a] == key
  }

  ghost predicate SoundKeys(pages: seq<Page>, prefix: Text) {
    && (forall i, a, key :: KeyAt(pages, i, a, key) ==> key.Str? && prefix <= key.s)
    && (forall i, a, j, b, key :: KeyAt(pages, i, a, key) && KeyAt(pages, j, b, key) ==> i == j && a == b)
  }

  /** At most twenty sound pages, only the last not truncated, no token twice, no key twice. */
  ghost predicate WholeListing(lister: Lister, prefix: Text, t: nat, pages: seq<Page>) {
    && 1 <= |pages| <= 20 && Conversation(lister, t, pages)
    && (forall i :: 0 <= i < |pages| ==> SoundPage(pages[i], i == |pages| - 1))
    && NewTokens(pages) && SoundKeys(pages, prefix)
  }

  predicate NewTokens(pages: seq<Page>) {
    forall i, j :: 0 <= i < j < |pages| - 1 && pages[i].Page? && pages[j].Page? ==> pages[i].next != pages[j].next
  }

  /** The keys of all pages, in order. */
  function Flat(pages: seq<Page>): seq<Value> {
    if pages == [] then [] else Flat(pages[..|pages| - 1]) + KeysOf(pages[|pages| - 1])
  }

  lemma {:induction false} FlatHas(pages: seq<Page>, key: Value)
    ensures key in Flat(pages) <==> exists i, a :: KeyAt(pages, i, a, key)
  {
    if pages != [] {
      var n := |pages| - 1;
      FlatHas(pages[..n], key);
      if key in KeysOf(pages[n]) {
        var a :| 0 <= a < |KeysOf(pages[n])| && KeysOf(pages[n])[a] == key;
        assert KeyAt(pages, n, a, key);
      }
      if i, a :| KeyAt(pages[..n], i, a, key) {
        assert KeyAt(pages, i, a, key);
      }
      if i, a :| KeyAt(pages, i, a, key) {
        if i < n {
          assert KeyAt(pages[..n], i, a, key);
        } else {
          assert key in KeysOf(pages[n]);
        }
      }
    }
  }

  predicate Apart(a: seq<Value>, b: seq<Value>) {
    forall k :: k in a ==> k !in b
  }

  lemma {:induction false} KeysJoined(a: seq<Value>, b: seq<Value>, prefix: Text)
    requires KeysOk(a + b, prefix)
    ensures KeysOk(a, prefix) && KeysOk(b, prefix) && Apart(a, b)
  {
    var all := a + b;
    KeysPrefix(a, b, prefix);
    assert forall i :: 0 <= i < |a| ==> all[i] == a[i];
    forall k | k in a ensures k !in b {
      var i :| 0 <= i < |a| && a[i] == k;
      forall j | 0 <= j < |b| ensures b[j] != k {
        assert all[i] != all[|a| + j];
      }
    }
    forall i | 0 <= i < |b| ensures b[i].Str? && prefix <= b[i].s {
      assert all[|a| + i] == b[i];
    }
    forall i, j | 0 <= i < j < |b| ensures b[i] != b[j] {
      assert all[|a| + i] != all[|a| + j];
    }
  }

  lemma {:induction false} KeysJoin(a: seq<Value>, b: seq<Value>, prefix: Text)
    ensures KeysOk(a + b, prefix) <==> KeysOk(a, prefix) && KeysOk(b, prefix) && Apart(a, b)
  {
    if KeysOk(a + b, prefix) {
      KeysJoined(a, b, prefix);
    }
    if KeysOk(a, prefix) && KeysOk(b, prefix) && Apart(a, b) {
      var all := a + b;
      forall i, j | 0 <= i < j < |all| ensures all[i] != all[j] {
        assert i < |a| <= j ==> a[i] in a && b[j - |a|] in b;
      }
    }
  }

  lemma {:induction false} FrontKeys(pages: seq<Page>, front: seq<Page>, last: Page)
    requires pages == front + [last]
    ensures forall i, a, key :: KeyAt(front, i, a, key) ==> KeyAt(pages, i, a, key)
    ensures forall i, a, key :: KeyAt(pages, i, a, key) && i < |front| ==> KeyAt(front, i, a, key)
    ensures forall a, key :: KeyAt(pages, |front|, a, key) <==> 0 <= a < |KeysOf(last)| && KeysOf(last)[a] == key
  {
  }

  lemma {:induction false} PartsJoined(pages: seq<Page>, front: seq<Page>, last: Page, prefix: Text)
    requires pages == front + [last] && SoundKeys(front, prefix) && KeysOk(KeysOf(last), prefix)
    requires Apart(Flat(front), KeysOf(last))
    ensures SoundKeys(pages, prefix)
  {
    hide Flat;
    FrontKeys(pages, front, last);
    forall i, a, key | KeyAt(pages, i, a, key)
      ensures if i < |front| then KeyAt(front, i, a, key) && key in Flat(front)
              else i == |front| && KeysOf(last)[a] == key
    {
      if i < |front| {
        FlatHas(front, key);
      }
    }
    hide KeyAt, KeysOf;
  }

  lemma {:induction false} JoinedParts(pages: seq<Page>, front: seq<Page>, last: Page, prefix: Text)
    requires pages == front + [last] && SoundKeys(pages, prefix)
    ensures SoundKeys(front, prefix) && KeysOk(KeysOf(last), prefix) && Apart(Flat(front), KeysOf(last))
  {
    hide Flat, KeyAt, KeysOf;
    FrontKeys(pages, front, last);
    var n := |front|;
    forall i, j | 0 <= i < j < |KeysOf(last)| ensures KeysOf(last)[i] != KeysOf(last)[j] {
      assert KeyAt(pages, n, i, KeysOf(last)[i]) && KeyAt(pages, n, j, KeysOf(last)[j]);
    }
    forall i | 0 <= i < |KeysOf(last)| ensures KeysOf(last)[i].Str? && prefix <= KeysOf(last)[i].s {
      assert KeyAt(pages, n, i, KeysOf(last)[i]);
    }
    forall k | k in Flat(front) ensures k !in KeysOf(last) {
      FlatHas(front, k);
      var i, a :| KeyAt(front, i, a, k);
      KeyInside(front, i, a, k);
      forall b | 0 <= b < |KeysOf(last)| ensures KeysOf(last)[b] != k {
        assert KeyAt(pages, n, b, KeysOf(last)[b]) && KeyAt(pages, i, a, k);
      }
    }
  }

  lemma {:induction false} KeyInside(pages: seq<Page>, i: int, a: int, key: Value)
    requires KeyAt(pages, i, a, key)
    ensures 0 <= i < |pages|
  {
  }

  lemma {:induction false} KeysExactly(pages: seq<Page>, prefix: Text)
    ensures KeysOk(Flat(pages), prefix) <==> SoundKeys(pages, prefix)
  {
    if pages != [] {
      var front, last := pages[..|pages| - 1], pages[|pages| - 1];
      KeysExactly(front, prefix);
      KeysJoin(Flat(front), KeysOf(last), prefix);
      hide KeysOk, SoundKeys;
      if SoundKeys(pages, prefix) {
        JoinedParts(pages, front, last, prefix);
      }
      if SoundKeys(front, prefix) && KeysOk(KeysOf(last), prefix) && Apart(Flat(front), KeysOf(last)) {
        PartsJoined(pages, front, last, prefix);
      }
    }
  }

  lemma {:induction false} PageIs(lister: Lister, t: nat, pages: seq<Page>, i: nat)
    requires Conversation(lister, t, pages) && i < |pages|
    ensures pages[i] == PageAt(lister, t, i)
  {
    assert Answers(lister, t, pages, i);
    if i > 0 {
      PageIs(lister, t, pages, i - 1);
    }
  }

  lemma {:induction false} FlatIsListed(lister: Lister, t: nat, pages: seq<Page>)
    requires forall i :: 0 <= i < |pages| ==> pages[i] == PageAt(lister, t, i)
    ensures Flat(pages) == Listed(lister, t, |pages|)
  {
    hide PageAt;
    if pages != [] {
      var n := |pages| - 1;
      FlatIsListed(lister, t, pages[..n]);
    }
  }

  lemma {:induction false} WholeFinishes(lister: Lister, prefix: Text, t: nat, pages: seq<Page>)
    requires WholeListing(lister, prefix, t, pages)
    ensures Finishes(lister, prefix, t, |pages|) && Flat(pages) == Listed(lister, t, |pages|)
  {
    var n := |pages|;
    forall i | 0 <= i < n ensures pages[i] == PageAt(lister, t, i) {
      PageIs(lister, t, pages, i);
    }
    FlatIsListed(lister, t, pages);
    KeysExactly(pages, prefix);
    hide Conversation, SoundKeys, KeysOk, Listed, Flat, PageAt;
    SoundPages(lister, t, pages);
    ListedPrefix(lister, prefix, t, n - 1, n);
    hide SoundPage, PageOk, Token;
  }

  lemma {:induction false} SoundPages(lister: Lister, t: nat, pages: seq<Page>)
    requires pages != [] && forall i :: 0 <= i < |pages| ==> pages[i] == PageAt(lister, t, i)
    requires forall i :: 0 <= i < |pages| ==> SoundPage(pages[i], i == |pages| - 1)
    requires NewTokens(pages)
    ensures forall i :: 0 <= i < |pages| ==>
      PageOk(PageAt(lister, t, i)) && PageAt(lister, t, i).truncated == Some(i < |pages| - 1)
    ensures TokensFresh(lister, t, |pages| - 1)
  {
    hide PageAt;
    forall i, j | 1 <= i < j <= |pages| - 1 ensures Token(lister, t, i) != Token(lister, t, j) {
      assert pages[i - 1].next != pages[j - 1].next;
      assert pages[i - 1] == PageAt(lister, t, i - 1) && pages[j - 1] == PageAt(lister, t, j - 1);
    }
  }

  function Pages(lister: Lister, t: nat, n: nat): seq<Page> {
    seq(n, i requires 0 <= i < n => PageAt(lister, t, i))
  }

  lemma {:induction false} FinishedPages(lister: Lister, prefix: Text, t: nat, n: nat)
    requires Finishes(lister, prefix, t, n)
    ensures forall i :: 0 <= i < n ==>
      PageOk(PageAt(lister, t, i)) && PageAt(lister, t, i).truncated.value == (i < n - 1)
    ensures KeysOk(Listed(lister, t, n), prefix) && TokensFresh(lister, t, n - 1)
  {
    hide PageOk, KeysOk, TokensFresh, Listed, PageAt;
  }

  lemma {:induction false} PagesAnswer(lister: Lister, t: nat, n: nat)
    requires forall i :: 0 <= i < n ==>
      PageOk(PageAt(lister, t, i)) && PageAt(lister, t, i).truncated.value == (i < n - 1)
    ensures Conversation(lister, t, Pages(lister, t, n))
    ensures forall i :: 0 <= i < n ==> SoundPage(Pages(lister, t, n)[i], i == n - 1)
  {
    var pages := Pages(lister, t, n);
    forall i | 0 <= i < n ensures Answers(lister, t, pages, i) {
      assert pages[i] == lister(t + i, Token(lister, t, i));
      if i > 0 {
        TokenNext(lister, t, i - 1);
      }
    }
    hide PageAt;
  }

  lemma {:induction false} PagesFresh(lister: Lister, t: nat, n: nat)
    requires n > 0 && TokensFresh(lister, t, n - 1)
    requires forall i :: 0 <= i < n ==>
      PageOk(PageAt(lister, t, i)) && PageAt(lister, t, i).truncated.value == (i < n - 1)
    ensures NewTokens(Pages(lister, t, n))
  {
    hide PageAt;
    var pages := Pages(lister, t, n);
    forall i, j | 0 <= i < j < n - 1 ensures pages[i].Page? && pages[j].Page? && pages[i].next != pages[j].next {
      assert Token(lister, t, i + 1) != Token(lister, t, j + 1);
    }
  }

  lemma {:induction false} FinishedIsWhole(lister: Lister, prefix: Text, t: nat, n: nat)
    requires Finishes(lister, prefix, t, n)
    ensures WholeListing(lister, prefix, t, Pages(lister, t, n))
  {
    FinishedPages(lister, prefix, t, n);
    PagesAnswer(lister, t, n);
    PagesFresh(lister, t, n);
    FlatIsListed(lister, t, Pages(lister, t, n));
    KeysExactly(Pages(lister, t, n), prefix);
    hide SoundKeys, KeysOk, Listed, Flat, Conversation, NewTokens, SoundPage, PageOk, Continues, TokensFresh, PageAt;
  }

  /** A listing ends with request number `n` exactly when some `n` pages are a whole one. */
  lemma {:induction false} ListingExactly(lister: Lister, prefix: Text, t: nat, n: nat)
    ensures Finishes(lister, prefix, t, n) <==>
      exists pages :: WholeListing(lister, prefix, t, pages) && |pages| == n
  {
    hide Finishes, WholeListing, Listed;
    if Finishes(lister, prefix, t, n) {
      FinishedIsWhole(lister, prefix, t, n);
      assert |Pages(lister, t, n)| == n;
    }
    if pages :| WholeListing(lister, prefix, t, pages) && |pages| == n {
      WholeFinishes(lister, prefix, t, pages);
    }
  }

  /** What a whole listing lists are the keys of its pages. */
  lemma {:induction false} ListedExactly(lister: Lister, prefix: Text, t: nat, pages: seq<Page>, k: Text)
    requires WholeListing(lister, prefix, t, pages)
    ensures k in KeySet(Listed(lister, t, |pages|)) <==> exists i, a :: KeyAt(pages, i, a, Str(k))
  {
    WholeFinishes(lister, prefix, t, pages);
    FlatHas(pages, Str(k));
    InKeySet(Flat(pages), k);
  }

  lemma {:induction false} InKeySet(keys: seq<Value>, k: Text)
    ensures k in KeySet(keys) <==> Str(k) in keys
  {
  }
}
