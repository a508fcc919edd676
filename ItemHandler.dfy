/**
 * The item download example (class ItemMultiResponseHandler): the planner that
 * seeds the staging table and builds one request per (chunk of ids, language),
 * and the handler that routes every finished response by its status code and
 * writes the items of an accepted response into that language's column.
 *
 * The staging table is a map from item id to its row; a row maps column names
 * to text. The database driver, curl, JSON decoding and URL parsing are not
 * modelled: their results are inputs (the decoded items, whether the seeding
 * batch and the bulk write succeeded, the `lang` query parameter of the request URL).
 */
module ItemHandler {
  import opened Wrappers
  import opened PhpStrings
  import opened Response
  import opened HeaderLines

  const CHUNK_SIZE: nat := 200
  const API_LANGUAGES: seq<string> := ["de", "en", "es", "fr", "zh"]
  const API_BASE: string := "https://api.guildwars2.com/v2/items"
  const LISTING_FAILED: string := "failed to get /v2/items"

  /** One decoded item: its id and its JSON re-encoding (the encoding itself is not modelled). */
  datatype Item = Item(id: int, json: string)

  type Row = map<string, string>
  type Table = map<int, Row>

  /** What the handler gives back to the transfer loop: nothing, or a URL to fetch again. */
  datatype Reply = NoRequeue | Requeue(url: Value)

  /** The reply together with the staging table after the response was handled. */
  datatype Handled = Handled(reply: Reply, table: Table)

  /** A freshly seeded row: every language column holds the empty text. */
  const EMPTY_ROW: Row := map l | l in API_LANGUAGES :: ""

  /** Reading a property of a stdClass object; an undefined one reads as null. */
  function Prop(o: Object, key: string): (v: Value)
    ensures key !in o ==> v == Null
    ensures key in o ==> v == o[key]
  {
    if key in o then o[key] else Null
  }

  /** PHP truthiness as `?:` sees it: the empty text, "0", 0 and null are false. */
  predicate Truthy(v: Value)
  {
    match v
    case Str(s) => s != "" && s != "0"
    case Int(i) => i != 0
    case Null => false
  }

  /** The content-language header if it is truthy, else the request's `lang` parameter. */
  function ResolveLanguage(headers: Object, queryLang: Value): (lang: Value)
    ensures Truthy(Prop(headers, "content-language")) ==> lang == headers["content-language"]
    ensures !Truthy(Prop(headers, "content-language")) ==> lang == queryLang
  {
    var header := Prop(headers, "content-language");
    if Truthy(header) then header else queryLang
  }

  /** Whether a resolved language names one of the table's language columns. */
  predicate Supported(lang: Value)
  {
    lang.Str? && lang.s in API_LANGUAGES
  }

  /** The status codes whose body is written: 200 and 206, compared strictly. */
  predicate Accepted(code: Value)
  {
    code == Int(200) || code == Int(206)
  }

  /** The JSON of the last item in the batch with the given id, if any has it. */
  function LastPayload(items: seq<Item>, id: int): (r: Option<string>)
    ensures r.None? <==> forall k :: 0 <= k < |items| ==> items[k].id != id
    ensures r.Some? ==> exists k :: 0 <= k < |items| && items[k].id == id && items[k].json == r.value
                                    && forall m :: k < m < |items| ==> items[m].id != id
    decreases |items|
  {
    if items == [] then None
    else if items[|items| - 1].id == id then Some(items[|items| - 1].json)
    else LastPayload(items[..|items| - 1], id)
  }

  /**
   * The bulk UPDATE: for each item in turn, the column `lang` of row `item.id`
   * is set to the item's JSON; an item whose row does not exist changes nothing.
   */
  function UpdateRows(t: Table, lang: string, items: seq<Item>): (r: Table)
    ensures r.Keys == t.Keys
    decreases |items|
  {
    if items == [] then t
    else
      var prev := UpdateRows(t, lang, items[..|items| - 1]);
      var item := items[|items| - 1];
      if item.id in prev then prev[item.id := prev[item.id][lang := item.json]] else prev
  }

  /** The decision procedure for one finished response. */
  function Respond(code: Value, url: Value, headers: Object, queryLang: Value,
                   items: seq<Item>, writeOk: bool, t: Table): (h: Handled)
    ensures h.reply.Requeue? ==> h.reply.url == url
    ensures h.reply.Requeue? <==>
              code == Int(502) || (Accepted(code) && Supported(ResolveLanguage(headers, queryLang)) && !writeOk)
    ensures h.table != t ==> Accepted(code) && Supported(ResolveLanguage(headers, queryLang)) && writeOk
  {
    if Accepted(code) then
      var lang := ResolveLanguage(headers, queryLang);
      if !Supported(lang) then Handled(NoRequeue, t)
      else if writeOk then Handled(NoRequeue, UpdateRows(t, lang.s, items))
      else Handled(Requeue(url), t)
    else if code == Int(502) then Handled(Requeue(url), t)
    else Handled(NoRequeue, t)
  }

  /** INSERT IGNORE of every id: a missing row is added empty, an existing row is kept. */
  function Seeded(t: Table, ids: seq<int>): (r: Table)
    ensures forall k :: 0 <= k < |ids| ==> ids[k] in r
    ensures forall id :: id in r <==> id in t || id in ids
    ensures forall id :: id in t ==> r[id] == t[id]
    ensures forall id :: id in r && id !in t ==> r[id] == EMPTY_ROW
  {
    map id | id in t.Keys + set k | 0 <= k < |ids| :: ids[k] :: if id in t then t[id] else EMPTY_ROW
  }

  /** array_chunk: consecutive slices of `size` ids, the last one possibly shorter. */
  function Chunks(ids: seq<int>, size: nat): (r: seq<seq<int>>)
    requires size >= 1
    ensures forall c :: 0 <= c < |r| ==> 1 <= |r[c]| <= size
    ensures forall c :: 0 <= c < |r| - 1 ==> |r[c]| == size
    ensures ids == [] <==> r == []
    decreases |ids|
  {
    if ids == [] then []
    else if |ids| <= size then [ids]
    else [ids[..size]] + Chunks(ids[size..], size)
  }

  /** Concatenation of a sequence of chunks. */
  function Flatten(chunks: seq<seq<int>>): seq<int>
  {
    if chunks == [] then [] else chunks[0] + Flatten(chunks[1..])
  }

  /** implode(',', chunk): the ids in decimal, separated by commas. */
  function IdList(chunk: seq<int>): string
  {
    Join(",", seq(|chunk|, k requires 0 <= k < |chunk| => IntToString(chunk[k])))
  }

  /** The request for one chunk of ids in one language. */
  function RequestUrl(lang: string, chunk: seq<int>): string
  {
    API_BASE + "?lang=" + lang + "&ids=" + IdList(chunk)
  }

  /** The five requests of one chunk, in the order of API_LANGUAGES. */
  function ChunkUrls(chunk: seq<int>): (r: seq<string>)
    ensures |r| == |API_LANGUAGES|
    ensures forall j :: 0 <= j < |r| ==> r[j] == RequestUrl(API_LANGUAGES[j], chunk)
  {
    seq(|API_LANGUAGES|, j requires 0 <= j < |API_LANGUAGES| => RequestUrl(API_LANGUAGES[j], chunk))
  }

  /** All requests, chunk after chunk. */
  function Plan(chunks: seq<seq<int>>): seq<string>
  {
    if chunks == [] then [] else Plan(chunks[..|chunks| - 1]) + ChunkUrls(chunks[|chunks| - 1])
  }

  class ItemMultiResponseHandler {
    var callback: int
    var urls: seq<string>
    var table: Table

    /** A handler with no request planned, no response seen and an empty staging table. */
    constructor ()
      ensures callback == 0 && urls == [] && table == map[]
    {
      callback := 0;
      urls := [];
      table := map[];
    }

    /**
     * Handles one finished response. The request's `lang` query parameter, the
     * decoded items and the outcome of the bulk write are given.
     */
    method HandleResponse(response: ResponseAbstract, queryLang: Value, items: seq<Item>, writeOk: bool)
      returns (reply: Reply)
      modifies this`callback, this`table
      ensures callback == old(callback) + 1
      ensures Handled(reply, table) ==
                Respond(Prop(response.info, "http_code"), Prop(response.info, "url"),
                        response.headers, queryLang, items, writeOk, old(table))
    {
      var info := response.info;
      callback := callback + 1;
      var code := Prop(info, "http_code");
      var url := Prop(info, "url");
      if code == Int(200) || code == Int(206) {
        var header := Prop(response.headers, "content-language");
        var lang := if Truthy(header) then header else queryLang;
        if !(lang.Str? && lang.s in API_LANGUAGES) {
          return NoRequeue;
        }
        if writeOk {
          table := UpdateRows(table, lang.s, items);
        } else {
          return Requeue(url);
        }
        return NoRequeue;
      } else if code == Int(502) {
        return Requeue(url);
      } else {
        return NoRequeue;
      }
    }

    /**
     * Plans the download from the listing of all item ids: a listing whose
     * status is not 200 fails before anything is written; otherwise every id
     * is seeded and one request per chunk and language is appended. The
     * outcome of the seeding batch is given; it is not checked, so the
     * requests are planned whether or not the rows were inserted.
     */
    method GetUrls(listingCode: Value, ids: seq<int>, seedOk: bool) returns (r: Result<(), string>)
      modifies this`table, this`urls
      ensures listingCode != Int(200) ==> r == Failure(LISTING_FAILED) && table == old(table) && urls == old(urls)
      ensures listingCode == Int(200) ==> r == Success(())
      ensures listingCode == Int(200) && seedOk ==> table == Seeded(old(table), ids)
      ensures listingCode == Int(200) && !seedOk ==> table == old(table)
      ensures listingCode == Int(200) ==> urls == old(urls) + Plan(Chunks(ids, CHUNK_SIZE))
    {
      if listingCode != Int(200) {
        return Failure(LISTING_FAILED);
      }
      if seedOk {
        SeedRows(ids);
      }
      AppendPlan(Chunks(ids, CHUNK_SIZE));
      r := Success(());
    }

    /** array_map of the per-chunk step over the chunks, in order. */
    method AppendPlan(chunks: seq<seq<int>>)
      modifies this`urls
      ensures urls == old(urls) + Plan(chunks)
    {
      var c := 0;
      while c < |chunks|
        invariant 0 <= c <= |chunks|
        invariant urls == old(urls) + Plan(chunks[..c])
      {
        AppendChunkUrls(chunks[c]);
        PlanStep(chunks, c);
        assert urls == old(urls) + (Plan(chunks[..c]) + ChunkUrls(chunks[c]));
        c := c + 1;
      }
      assert chunks[..c] == chunks;
    }

    /** The INSERT IGNORE batch: one statement per id, in listing order. */
    method SeedRows(ids: seq<int>)
      modifies this`table
      ensures table == Seeded(old(table), ids)
    {
      var i := 0;
      while i < |ids|
        invariant 0 <= i <= |ids|
        invariant table == Seeded(old(table), ids[..i])
      {
        SeededStep(old(table), ids, i);
        if ids[i] !in table {
          table := table[ids[i] := EMPTY_ROW];
        }
        i := i + 1;
      }
      assert ids[..i] == ids;
    }

    /** The per-chunk step of the planner: one request per language, in order. */
    method AppendChunkUrls(chunk: seq<int>)
      modifies this`urls
      ensures urls == old(urls) + ChunkUrls(chunk)
    {
      var j := 0;
      while j < |API_LANGUAGES|
        invariant 0 <= j <= |API_LANGUAGES|
        invariant urls == old(urls) + ChunkUrls(chunk)[..j]
      {
        urls := urls + [RequestUrl(API_LANGUAGES[j], chunk)];
        j := j + 1;
      }
    }
  }

  /** An UPDATE batch none of whose ids has a row writes nothing at all. */
  lemma {:induction false} UpdateRowsUnseeded(t: Table, lang: string, items: seq<Item>)
    requires forall k :: 0 <= k < |items| ==> items[k].id !in t
    ensures UpdateRows(t, lang, items) == t
    decreases |items|
  {
    if items != [] {
      UpdateRowsUnseeded(t, lang, items[..|items| - 1]);
    }
  }

  /** So a response for ids that were never seeded leaves the table as it was, whatever it is routed to. */
  lemma UnseededResponseWritesNothing(code: Value, url: Value, headers: Object, queryLang: Value,
                                      items: seq<Item>, writeOk: bool, t: Table)
    requires forall k :: 0 <= k < |items| ==> items[k].id !in t
    ensures Respond(code, url, headers, queryLang, items, writeOk, t).table == t
  {
    var lang := ResolveLanguage(headers, queryLang);
    if Accepted(code) && Supported(lang) && writeOk {
      UpdateRowsUnseeded(t, lang.s, items);
    }
  }

  /** Planning one more chunk appends that chunk's requests. */
  lemma PlanStep(chunks: seq<seq<int>>, c: nat)
    requires c < |chunks|
    ensures Plan(chunks[..c + 1]) == Plan(chunks[..c]) + ChunkUrls(chunks[c])
  {
    assert chunks[..c + 1][..c] == chunks[..c];
  }

  /** One more INSERT IGNORE extends the seeded prefix by one id. */
  lemma SeededStep(t: Table, ids: seq<int>, i: nat)
    requires i < |ids|
    ensures Seeded(t, ids[..i + 1]) ==
              var s := Seeded(t, ids[..i]); if ids[i] in s then s else s[ids[i] := EMPTY_ROW]
  {
    assert ids[..i + 1][i] == ids[i];
    assert forall k :: 0 <= k < i ==> ids[..i + 1][k] == ids[..i][k];
  }

  /** The resolved language from a content-language header line received by the header callback. */
  lemma ContentLanguageHeaderResolves(h: Object, queryLang: Value, name: string, value: string)
    requires ':' !in name && FieldName(name) == "content-language"
    requires Trim(value) != "" && Trim(value) != "0"
    ensures ResolveLanguage(ApplyLine(h, name + ":" + value), queryLang) == Str(Trim(value))
  {
    FieldLineStores(h, name, value);
  }

  /** The usual spelling of the header is stored under the name the handler reads. */
  lemma ContentLanguageName()
    ensures FieldName("Content-Language") == "content-language"
  {
    assert ToLower("Content-Language") == "content-language" by {}
    FieldNameExample("Content-Language", "content-language");
  }

  /** A 200 or 206 with a supported language: the write either lands or the URL is requeued. */
  lemma AcceptedRouting(code: Value, url: Value, headers: Object, queryLang: Value,
                        items: seq<Item>, writeOk: bool, t: Table)
    requires Accepted(code)
    ensures var lang := ResolveLanguage(headers, queryLang);
            var h := Respond(code, url, headers, queryLang, items, writeOk, t);
            && (!Supported(lang) ==> h == Handled(NoRequeue, t))
            && (Supported(lang) && writeOk ==> h == Handled(NoRequeue, UpdateRows(t, lang.s, items)))
            && (Supported(lang) && !writeOk ==> h == Handled(Requeue(url), t))
  {
  }

  /** A 502 is requeued at once, whatever the headers, items or write outcome. */
  lemma BadGatewayRequeued(url: Value, headers: Object, queryLang: Value, items: seq<Item>, writeOk: bool, t: Table)
    ensures Respond(Int(502), url, headers, queryLang, items, writeOk, t) == Handled(Requeue(url), t)
  {
  }

  /** Any status other than 200, 206 and 502 is dropped without a write. */
  lemma OtherStatusDropped(code: Value, url: Value, headers: Object, queryLang: Value,
                           items: seq<Item>, writeOk: bool, t: Table)
    requires !Accepted(code) && code != Int(502)
    ensures Respond(code, url, headers, queryLang, items, writeOk, t) == Handled(NoRequeue, t)
  {
  }

  /**
   * The row of an existing id after the bulk UPDATE: its `lang` column holds the
   * JSON of the last item with that id, every other column is as it was, and a
   * row no item names is unchanged.
   */
  lemma {:induction false} UpdateRowsAt(t: Table, lang: string, items: seq<Item>, id: int)
    requires id in t
    ensures id in UpdateRows(t, lang, items)
    ensures UpdateRows(t, lang, items)[id] ==
              match LastPayload(items, id)
              case None => t[id]
              case Some(json) => t[id][lang := json]
  {
    if items != [] {
      var pre := items[..|items| - 1];
      UpdateRowsAt(t, lang, pre, id);
      var item := items[|items| - 1];
      if item.id == id {
        var prev := UpdateRows(t, lang, pre)[id];
        assert prev[lang := item.json] == t[id][lang := item.json];
      }
    }
  }

  /** The accepted write changes no column but `lang`, in no row. */
  lemma UpdateRowsFrame(t: Table, lang: string, items: seq<Item>, id: int, column: string)
    requires id in t && column != lang
    ensures column in UpdateRows(t, lang, items)[id] <==> column in t[id]
    ensures column in t[id] ==> UpdateRows(t, lang, items)[id][column] == t[id][column]
  {
    UpdateRowsAt(t, lang, items, id);
  }

  /** Running the same INSERT IGNORE batch twice changes nothing the second time. */
  lemma SeedingIdempotent(t: Table, ids: seq<int>)
    ensures Seeded(Seeded(t, ids), ids) == Seeded(t, ids)
  {
  }

  /** The chunks concatenate back to the id list. */
  lemma {:induction false} ChunksFlatten(ids: seq<int>, size: nat)
    requires size >= 1
    ensures Flatten(Chunks(ids, size)) == ids
    decreases |ids|
  {
    if ids == [] {
    } else if |ids| <= size {
      assert Flatten([ids]) == ids + Flatten([]);
    } else {
      var rest := Chunks(ids[size..], size);
      ChunksFlatten(ids[size..], size);
      assert Chunks(ids, size) == [ids[..size]] + rest;
      assert ([ids[..size]] + rest)[1..] == rest;
      assert ids == ids[..size] + ids[size..];
    }
  }

  /** There are ceil(|ids| / size) chunks: the smallest count whose capacity holds every id. */
  lemma {:induction false} ChunksCount(ids: seq<int>, size: nat)
    requires size >= 1
    ensures (|Chunks(ids, size)| - 1) * size < |ids| <= |Chunks(ids, size)| * size
    decreases |ids|
  {
    if |ids| > size {
      ChunksCount(ids[size..], size);
      var n := |Chunks(ids[size..], size)|;
      assert |Chunks(ids, size)| == n + 1;
      assert (n + 1) * size == n * size + size;
      assert (n - 1) * size == n * size - size;
    }
  }

  /** Five requests per chunk. */
  lemma {:induction false} PlanLength(chunks: seq<seq<int>>)
    ensures |Plan(chunks)| == |API_LANGUAGES| * |chunks|
  {
    if chunks != [] {
      var pre := chunks[..|chunks| - 1];
      PlanLength(pre);
      assert Plan(chunks) == Plan(pre) + ChunkUrls(chunks[|chunks| - 1]);
    }
  }

  /** Chunk-major, language-minor: request 5c + j is chunk c in language j. */
  lemma {:induction false} PlanAt(chunks: seq<seq<int>>, c: nat, j: nat)
    requires c < |chunks| && j < |API_LANGUAGES|
    ensures |API_LANGUAGES| * c + j < |Plan(chunks)|
    ensures Plan(chunks)[|API_LANGUAGES| * c + j] == RequestUrl(API_LANGUAGES[j], chunks[c])
  {
    var pre := chunks[..|chunks| - 1];
    PlanLength(pre);
    assert Plan(chunks) == Plan(pre) + ChunkUrls(chunks[|chunks| - 1]);
    if c < |chunks| - 1 {
      PlanAt(pre, c, j);
      assert pre[c] == chunks[c];
    }
  }

  /** A listing of L ids plans ceil(L / 200) * 5 requests; an empty listing plans none. */
  lemma UrlCount(ids: seq<int>)
    ensures |Plan(Chunks(ids, CHUNK_SIZE))| == (|ids| + CHUNK_SIZE - 1) / CHUNK_SIZE * |API_LANGUAGES|
    ensures ids == [] ==> Plan(Chunks(ids, CHUNK_SIZE)) == []
  {
    ChunksCount(ids, CHUNK_SIZE);
    PlanLength(Chunks(ids, CHUNK_SIZE));
    var n := |Chunks(ids, CHUNK_SIZE)|;
    assert n == (|ids| + CHUNK_SIZE - 1) / CHUNK_SIZE;
  }

  /** The requests of one chunk are pairwise distinct: the language sits at a fixed place in the URL. */
  lemma RequestUrlsDistinct(j1: nat, j2: nat, chunk1: seq<int>, chunk2: seq<int>)
    requires j1 < |API_LANGUAGES| && j2 < |API_LANGUAGES| && j1 != j2
    ensures RequestUrl(API_LANGUAGES[j1], chunk1) != RequestUrl(API_LANGUAGES[j2], chunk2)
  {
    var prefix := API_BASE + "?lang=";
    var n := |prefix|;
    forall j, chunk | 0 <= j < |API_LANGUAGES|
      ensures RequestUrl(API_LANGUAGES[j], chunk)[n..n + 2] == API_LANGUAGES[j]
    {
      var u := RequestUrl(API_LANGUAGES[j], chunk);
      assert u == prefix + API_LANGUAGES[j] + ("&ids=" + IdList(chunk));
    }
  }
}
