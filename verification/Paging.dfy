/** Reading a conversation page by page: what one request returns, and what a client that follows
    has_next_page from the first page gets to see. */
module Paging {
  import opened Arith
  import opened Jobs

  const DEFAULT_PAGE: int := 1
  const DEFAULT_LIMIT: int := 20
  const MAX_LIMIT: int := 100

  /** A query parameter: missing, not a number, or a number. */
  datatype Param = Absent | Malformed | Number(n: int)

  datatype Response<T> =
    | BadRequest(parameter: string)
    | InternalError
    | Page(messages: seq<T>, page: int, limit: int, hasNext: bool)

  const INT64_MAX: int := 0x7FFF_FFFF_FFFF_FFFF

  /** What an int of 64 bits keeps of a product. */
  function Wrap64(n: int): (w: int)
    ensures -INT64_MAX - 1 <= w <= INT64_MAX
    ensures w == n <==> -INT64_MAX - 1 <= n <= INT64_MAX
  {
    (n + 0x8000_0000_0000_0000) % 0x1_0000_0000_0000_0000 - 0x8000_0000_0000_0000
  }

  function Min(a: int, b: int): int {
    if a <= b then a else b
  }

  /** LIMIT count OFFSET offset. */
  function Window<T>(history: seq<T>, offset: nat, count: nat): seq<T> {
    history[Min(offset, |history|)..Min(offset + count, |history|)]
  }

  /** The rows of the query, appended one by one. */
  method Scan<T>(history: seq<T>, offset: nat, limit: nat) returns (messages: seq<T>)
    ensures messages == Window(history, offset, limit)
  {
    messages := [];
    var row := Min(offset, |history|);
    while row < |history| && row < offset + limit
      invariant Min(offset, |history|) <= row <= Min(offset + limit, |history|)
      invariant messages == history[Min(offset, |history|)..row]
    {
      messages := messages + [history[row]];
      row := row + 1;
    }
  }

  /** GetMessagesByPrivateID on the conversation's messages, newest first. The offset is computed in 64
      bits, and Postgres refuses a negative one. */
  method GetMessagesByPrivateID<T>(history: seq<T>, page: int, limit: int) returns (messages: Option<seq<T>>)
    requires limit >= 1
    ensures var offset := Wrap64(Times(page - 1, limit));
      messages == if offset < 0 then None else Some(Window(history, offset, limit))
  {
    var offset := Wrap64(Times(page - 1, limit));
    if offset < 0 {
      return None;
    }
    var rows := Scan(history, offset, limit);
    messages := Some(rows);
  }

  /** Where a page starts: the limit that is asked of the database is one more than the client's. */
  function Offset(page: int, limit: int): nat
    requires page >= 1 && limit >= 1
  {
    MulMonotone(0, page - 1, limit + 1);
    Times(page - 1, limit + 1)
  }

  lemma WindowsNest<T>(history: seq<T>, offset: nat, limit: nat)
    ensures |Window(history, offset, limit + 1)| > limit <==> offset + limit < |history|
    ensures |Window(history, offset, limit + 1)| > limit ==>
      Window(history, offset, limit + 1)[..limit] == Window(history, offset, limit)
    ensures |Window(history, offset, limit + 1)| <= limit ==>
      Window(history, offset, limit + 1) == Window(history, offset, limit)
  {
  }

  /** One message more than the limit is asked for, to see whether there is a next page. */
  method FetchPage<T>(history: seq<T>, page: int, limit: int) returns (fetched: Option<(seq<T>, bool)>)
    requires page >= 1 && limit >= 1
    ensures var offset := Wrap64(Offset(page, limit));
      fetched == if offset < 0 then None else Some((Window(history, offset, limit), offset + limit < |history|))
  {
    var messages := GetMessagesByPrivateID(history, page, limit + 1);
    if messages.None? {
      return None;
    }
    ghost var offset := Wrap64(Offset(page, limit));
    assert messages.value == Window(history, offset, limit + 1);
    WindowsNest(history, offset, limit);
    hide Window, Offset, Wrap64;
    if |messages.value| > limit {
      fetched := Some((messages.value[..limit], true));
    } else {
      fetched := Some((messages.value, false));
    }
  }

  /** HandleGetPrivateMessages; strconv.Atoi refuses what 64 bits do not hold. */
  method HandleGetPrivateMessages<T>(idOk: bool, history: seq<T>, pageParam: Param, limitParam: Param, dbOk: bool)
      returns (response: Response<T>)
    ensures response.BadRequest? <==>
      || !idOk
      || pageParam == Malformed || (pageParam.Number? && !(1 <= pageParam.n <= INT64_MAX))
      || limitParam == Malformed || (limitParam.Number? && !(1 <= limitParam.n <= 100))
    ensures !response.BadRequest? ==>
      var page := if pageParam.Number? then pageParam.n else 1;
      var limit := if limitParam.Number? then limitParam.n else 20;
      && page >= 1 && limit >= 1
      && var offset := Wrap64(Offset(page, limit));
         response == if !dbOk || offset < 0 then InternalError
                     else Page(Window(history, offset, limit), page, limit, offset + limit < |history|)
  {
    hide Offset, Window, Wrap64;
    if !idOk {
      return BadRequest("private id");
    }
    var page, limit := DEFAULT_PAGE, DEFAULT_LIMIT;
    if pageParam != Absent {
      if pageParam == Malformed || pageParam.n < 1 || pageParam.n > INT64_MAX {
        return BadRequest("page");
      }
      page := pageParam.n;
    }
    if limitParam != Absent {
      if limitParam == Malformed || limitParam.n < 1 || limitParam.n > MAX_LIMIT {
        return BadRequest("limit");
      }
      limit := limitParam.n;
    }
    if !dbOk {
      return InternalError;
    }
    var fetched := FetchPage(history, page, limit);
    if fetched.None? {
      return InternalError;
    }
    response := Page(fetched.value.0, page, limit, fetched.value.1);
  }

  /** A page number far beyond any history can wrap around: this one shows the first page again. */
  lemma HugePageShowsTheFirst()
    ensures var page := 0x800_0000_0000_0000 + 1;
      page <= INT64_MAX && Wrap64(Offset(page, 31)) == 0 == Wrap64(Offset(1, 31))
  {
  }

  // ---- walking the history ----

  /** The pages a client gets by following has_next_page, when each page moves the offset by a stride. */
  function Walk<T>(history: seq<T>, limit: nat, stride: nat, offset: nat): seq<seq<T>>
    requires limit >= 1 && stride >= 1
    decreases |history| - offset
  {
    [Window(history, offset, limit)] +
    if offset + limit < |history| then Walk(history, limit, stride, offset + stride) else []
  }

  /** The code's stride is one more than the limit. */
  function CodeWalk<T>(history: seq<T>, limit: nat): seq<seq<T>>
    requires limit >= 1
  {
    Walk(history, limit, limit + 1, 0)
  }

  lemma {:induction false} PageFrom<T>(history: seq<T>, limit: nat, stride: nat, offset: nat, k: nat, from: nat)
    requires limit >= 1 && stride >= 1 && k < |Walk(history, limit, stride, offset)|
    requires from == offset + Times(k, stride)
    ensures Walk(history, limit, stride, offset)[k] == Window(history, from, limit)
    ensures k + 1 < |Walk(history, limit, stride, offset)| <==> from + limit < |history|
    decreases k
  {
    hide Times;
    Multiply(k, stride);
    if k > 0 {
      Multiply(k, stride);
      hide Window;
      PageFrom(history, limit, stride, offset + stride, k - 1, from);
    }
  }

  lemma PageAt<T>(history: seq<T>, limit: nat, stride: nat, offset: nat, k: nat)
    requires limit >= 1 && stride >= 1 && k < |Walk(history, limit, stride, offset)|
    ensures offset + Times(k, stride) >= 0
    ensures Walk(history, limit, stride, offset)[k] == Window(history, offset + Times(k, stride), limit)
    ensures k + 1 < |Walk(history, limit, stride, offset)| <==> offset + Times(k, stride) + limit < |history|
  {
    hide Times;
    Multiply(k, stride);
    MulMonotone(0, k, stride);
    PageFrom(history, limit, stride, offset, k, offset + Times(k, stride));
  }

  /** The walk is what the handler returns page by page, and it ends with the first page that says so:
      on no page of it does the offset wrap, or lie beyond the history. */
  lemma RequestsWalk<T>(history: seq<T>, limit: nat, k: nat)
    requires limit >= 1 && k < |CodeWalk(history, limit)| && |history| <= INT64_MAX
    ensures 0 <= Wrap64(Offset(k + 1, limit)) == Offset(k + 1, limit) <= |history|
    ensures CodeWalk(history, limit)[k] == Window(history, Offset(k + 1, limit), limit)
    ensures Offset(k + 1, limit) + limit < |history| <==> k + 1 < |CodeWalk(history, limit)|
  {
    hide Times;
    Multiply(k, limit + 1);
    MulMonotone(0, k, limit + 1);
    PageAt(history, limit, limit + 1, 0, k);
    if k > 0 {
      PageAt(history, limit, limit + 1, 0, k - 1);
      Multiply(k, limit + 1);
    }
  }

  /** The walk has one page for every limit + 1 messages, and one more. */
  lemma PageCount<T>(history: seq<T>, limit: nat)
    requires limit >= 1
    ensures |CodeWalk(history, limit)| == |history| / (limit + 1) + 1
  {
    hide Times;
    Multiply(0, limit + 1);
    var last := |CodeWalk(history, limit)| - 1;
    PageAt(history, limit, limit + 1, 0, last);
    Multiply(last + 1, limit + 1);
    if last > 0 {
      PageAt(history, limit, limit + 1, 0, last - 1);
      Multiply(last, limit + 1);
    }
    DivUnique(|history|, limit + 1, last);
  }

  /** Is message i on page k? */
  predicate OnPage<T>(history: seq<T>, limit: nat, k: nat, i: nat)
    requires limit >= 1
  {
    k < |CodeWalk(history, limit)| && Times(k, limit + 1) <= i < Times(k, limit + 1) + |CodeWalk(history, limit)[k]|
  }

  predicate Shown<T>(history: seq<T>, limit: nat, i: nat)
    requires limit >= 1
  {
    exists k | 0 <= k < |CodeWalk(history, limit)| :: OnPage(history, limit, k, i)
  }

  lemma OnPageMeans<T>(history: seq<T>, limit: nat, k: nat, i: nat)
    requires limit >= 1 && i < |history|
    ensures OnPage(history, limit, k, i) <==> Times(k, limit + 1) <= i < Times(k, limit + 1) + limit
    ensures OnPage(history, limit, k, i) ==> CodeWalk(history, limit)[k][i - Times(k, limit + 1)] == history[i]
  {
    hide Times;
    Multiply(k, limit + 1);
    MulMonotone(0, k, limit + 1);
    PageCount(history, limit);
    if k < |CodeWalk(history, limit)| {
      PageAt(history, limit, limit + 1, 0, k);
    } else if Times(k, limit + 1) <= i {
      DivAtLeast(k, |history|, limit + 1);
    }
  }

  /** Pages are disjoint and in order: a message is on at most one, and later ones are on later ones. */
  lemma PagesAreDisjointAndOrdered<T>(history: seq<T>, limit: nat, i: nat, j: nat, k: nat, l: nat)
    requires limit >= 1 && i <= j < |history| && OnPage(history, limit, k, i) && OnPage(history, limit, l, j)
    ensures k <= l && (i == j ==> k == l)
  {
    hide Times;
    Multiply(0, limit + 1);
    OnPageMeans(history, limit, k, i);
    OnPageMeans(history, limit, l, j);
    if l < k {
      MulMonotone(l + 1, k, limit + 1);
      Multiply(l + 1, limit + 1);
    }
    if i == j && k < l {
      MulMonotone(k + 1, l, limit + 1);
      Multiply(k + 1, limit + 1);
    }
  }

  /** The messages a walk never shows are exactly those at the positions limit, 2 limit + 1, ... */
  lemma NeverShownExactly<T>(history: seq<T>, limit: nat, i: nat)
    requires limit >= 1 && i < |history|
    ensures !Shown(history, limit, i) <==> i % (limit + 1) == limit
  {
    hide Times;
    Multiply(0, limit + 1);
    var b := limit + 1;
    DivBounds(i, b);
    if i % b != limit {
      OnPageMeans(history, limit, i / b, i);
    } else if Shown(history, limit, i) {
      var k :| 0 <= k < |CodeWalk(history, limit)| && OnPage(history, limit, k, i);
      OnPageMeans(history, limit, k, i);
      Multiply(k + 1, b);
      DivUnique(i, b, k);
    }
  }

  /** The walk shows the whole history exactly if it fits on one page. */
  lemma CompleteExactlyWhen<T>(history: seq<T>, limit: nat)
    requires limit >= 1
    ensures (forall i | 0 <= i < |history| :: Shown(history, limit, i)) <==> |history| <= limit
  {
    hide Times;
    Multiply(0, limit + 1);
    if |history| <= limit {
      forall i | 0 <= i < |history| ensures Shown(history, limit, i) {
        NeverShownExactly(history, limit, i);
      }
    } else {
      NeverShownExactly(history, limit, limit);
    }
  }

  function Flatten<T>(pages: seq<seq<T>>): seq<T> {
    if pages == [] then [] else pages[0] + Flatten(pages[1..])
  }

  lemma {:induction false} TiledFrom<T>(history: seq<T>, limit: nat, offset: nat)
    requires limit >= 1 && offset <= |history|
    ensures Flatten(Walk(history, limit, limit, offset)) == history[offset..]
    decreases |history| - offset
  {
    var w := Walk(history, limit, limit, offset);
    if offset + limit < |history| {
      TiledFrom(history, limit, offset + limit);
      assert w[1..] == Walk(history, limit, limit, offset + limit);
      assert history[offset..offset + limit] + history[offset + limit..] == history[offset..];
    } else {
      assert w[1..] == [];
      assert Flatten(w) == w[0] + [];
    }
  }

  /** With the offset taken from the limit itself, the pages would tile the history exactly. */
  lemma OffsetFromLimitTiles<T>(history: seq<T>, limit: nat)
    requires limit >= 1
    ensures Flatten(Walk(history, limit, limit, 0)) == history
  {
    TiledFrom(history, limit, 0);
  }
}
