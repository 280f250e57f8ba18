/**
 * The Eino indexer adapter over the vector store (EinoVectorStore): each
 * document's metadata is coerced into the fields of a vector upsert item,
 * and the items of a batch are handed to the store together.
 *
 * Metadata values are Go `any` values; those the coercions tell apart are
 * cases of `Any`. fmt's "%v" rendering and json.Marshal are parameters.
 * Float scores and vectors are `real`, and the float64 to float32
 * conversion of the vector is not modelled.
 */
module MilvusEino {
  import opened Common
  import opened GoStrings

  /** A metadata value, by its dynamic type. */
  datatype Any =
    | Nil
    | Str(s: string)
    | I64(i: int)
    | Int(i: int)
    | I32(i: int)
    | F64(x: real)
    | F32(x: real)
    | JsonNumber(text: string)
    | Other(tag: int)

  /** A document's metadata; None is a nil map. */
  type Meta = Option<map<string, Any>>

  datatype Doc = Doc(id: string, content: string, vector: seq<real>, metaData: Meta)

  datatype Item = Item(id: string, vector: seq<real>, tenantUserId: string, kbId: int, sourceType: string,
                       sourceKey: string, chunkId: int, content: string, metadataJson: string)

  /** The value under `key`, with a nil map, a missing key and a nil value all read as Nil. */
  function Lookup(m: Meta, key: string): Any
  {
    if m.None? || key !in m.value then Nil else m.value[key]
  }

  // ---------------------------------------------------------------------
  // metaString
  // ---------------------------------------------------------------------

  /** metaString: a string as it is, any other value in its "%v" form; nothing for a missing value. */
  function MetaString(m: Meta, key: string, show: Any -> string): (r: (string, bool))
    ensures Lookup(m, key) == Nil <==> !r.1
    ensures !r.1 ==> r.0 == []
    ensures Lookup(m, key).Str? ==> r == (Lookup(m, key).s, true)
    ensures Lookup(m, key) != Nil && !Lookup(m, key).Str? ==> r == (show(Lookup(m, key)), true)
  {
    var v := Lookup(m, key);
    if v == Nil then ("", false)
    else if v.Str? then (v.s, true)
    else (show(v), true)
  }

  // ---------------------------------------------------------------------
  // metaInt64
  // ---------------------------------------------------------------------

  /** Go's float-to-integer conversion: the fraction is dropped, towards zero. */
  function TruncateReal(x: real): (r: int)
    ensures x >= 0.0 ==> r as real <= x < r as real + 1.0
    ensures x < 0.0 ==> r as real - 1.0 < x <= r as real
  {
    if x >= 0.0 then x.Floor else -((-x).Floor)
  }

  /** strconv.ParseInt(s, 10, 64) and json.Number's Int64, as one result. */
  function ParseDecimal(s: string): Result<int>
  {
    match ParseInt64(s)
    case Some(v) => Ok(v)
    case None => Err(PlainErr(s))
  }

  /** metaInt64. */
  function MetaInt64(m: Meta, key: string): (r: Option<int>)
    ensures Lookup(m, key) == Nil || Lookup(m, key).Other? || Lookup(m, key) == Str([]) ==> r.None?
    ensures Lookup(m, key).I64? || Lookup(m, key).Int? || Lookup(m, key).I32? ==> r == Some(Lookup(m, key).i)
  {
    match MetaInt64Err(m, key)
    case Ok(v) => Some(v)
    case Err(_) => None
  }

  /** metaInt64 with the reason for a failure. */
  function MetaInt64Err(m: Meta, key: string): (r: Result<int>)
    ensures Lookup(m, key) == Nil ==> r == Err(PlainErr("missing meta"))
    ensures Lookup(m, key) == Str([]) ==> r == Err(PlainErr("empty"))
    ensures Lookup(m, key).F64? || Lookup(m, key).F32? ==> r == Ok(TruncateReal(Lookup(m, key).x))
  {
    match Lookup(m, key)
    case Nil => Err(PlainErr("missing meta"))
    case I64(i) => Ok(i)
    case Int(i) => Ok(i)
    case I32(i) => Ok(i)
    case F64(x) => Ok(TruncateReal(x))
    case F32(x) => Ok(TruncateReal(x))
    case JsonNumber(t) => ParseDecimal(t)
    case Str(t) => if t == [] then Err(PlainErr("empty")) else ParseDecimal(t)
    case Other(_) => Err(PlainErr("unsupported type"))
  }

  /**
   * metaInt64 fails on a missing value, an empty string, a string or
   * json.Number that is not a 64-bit decimal, and a value of another type;
   * integers come out as they are, floats truncated, and decimal strings
   * as the value they spell.
   */
  lemma MetaInt64Cases(m: Meta, key: string)
    ensures var v := Lookup(m, key); var r := MetaInt64Err(m, key);
      && (v == Nil || v.Other? || v == Str([]) ==> r.Err?)
      && (v.I64? || v.Int? || v.I32? ==> r == Ok(v.i))
      && (v.F64? || v.F32? ==> r == Ok(TruncateReal(v.x)))
      && (v.Str? && v.s != [] ==> (r.Ok? <==> ParseInt64(v.s).Some?) && (r.Ok? ==> r.value == ParseInt64(v.s).value))
      && (v.JsonNumber? ==> (r.Ok? <==> ParseInt64(v.text).Some?))
  {
  }

  /** A value formatted in decimal reads back as itself, whether stored as a string or a json.Number. */
  lemma MetaInt64ReadsFormatted(m: map<string, Any>, key: string, v: int)
    requires IsInt64(v)
    ensures MetaInt64Err(Some(m[key := Str(FormatInt(v))]), key) == Ok(v)
    ensures MetaInt64Err(Some(m[key := JsonNumber(FormatInt(v))]), key) == Ok(v)
  {
    ParseFormatRoundTrip(v);
  }

  // ---------------------------------------------------------------------
  // metaJSON
  // ---------------------------------------------------------------------

  /** metaJSON: "{}" for nothing or an empty string, a string as it is, any other value marshalled. */
  function MetaJson(m: Meta, key: string, marshal: Any -> Option<string>): (r: Result<string>)
    ensures Lookup(m, key) == Nil || Lookup(m, key) == Str([]) ==> r == Ok("{}")
    ensures Lookup(m, key).Str? && Lookup(m, key).s != [] ==> r == Ok(Lookup(m, key).s)
    ensures r.Ok? ==> r.value != []
  {
    match Lookup(m, key)
    case Nil => Ok("{}")
    case Str(s) => if s == [] then Ok("{}") else Ok(s)
    case _ =>
      match marshal(Lookup(m, key))
      case None => Err(PlainErr("json: unsupported value"))
      case Some(bs) => if bs == [] then Ok("{}") else Ok(bs)
  }

  // ---------------------------------------------------------------------
  // einoDocToVectorUpsertItem
  // ---------------------------------------------------------------------

  function Missing(id: string, what: string): Error
  {
    PlainErr("document " + id + " missing " + what)
  }

  function Invalid(id: string, what: string, e: Error): Error
  {
    PlainErr("document " + id + " invalid meta " + what + ": " + e.msg)
  }

  /** einoDocToVectorUpsertItem, for a document that is not nil. */
  function DocToItem(doc: Doc, show: Any -> string, marshal: Any -> Option<string>): (r: Result<Item>)
    ensures doc.id == [] || doc.vector == [] ==> r.Err?
    ensures r.Ok? ==> r.value.id == doc.id && r.value.vector == doc.vector && r.value.content == doc.content
    ensures r.Ok? ==> r.value.tenantUserId != [] && r.value.sourceType != [] && r.value.sourceKey != []
    ensures r.Ok? ==> r.value.kbId != 0 && r.value.chunkId != 0 && r.value.metadataJson != []
  {
    var md := doc.metaData;
    if doc.id == [] then Err(PlainErr("document missing ID"))
    else if doc.vector == [] then Err(Missing(doc.id, "dense vector"))
    else
      var (tenant, tenantOk) := MetaString(md, "tenant_user_id", show);
      if !tenantOk || tenant == [] then Err(Missing(doc.id, "meta tenant_user_id"))
      else
        var kb := MetaInt64Err(md, "kb_id");
        if kb.Err? then Err(Invalid(doc.id, "kb_id", kb.error))
        else if kb.value == 0 then Err(Missing(doc.id, "meta kb_id"))
        else
          var (sourceType, typeOk) := MetaString(md, "source_type", show);
          if !typeOk || sourceType == [] then Err(Missing(doc.id, "meta source_type"))
          else
            var (sourceKey, keyOk) := MetaString(md, "source_key", show);
            if !keyOk || sourceKey == [] then Err(Missing(doc.id, "meta source_key"))
            else
              var chunk := MetaInt64Err(md, "chunk_id");
              if chunk.Err? then Err(Invalid(doc.id, "chunk_id", chunk.error))
              else if chunk.value == 0 then Err(Missing(doc.id, "meta chunk_id"))
              else
                var meta := MetaJson(md, "metadata", marshal);
                if meta.Err? then Err(Invalid(doc.id, "metadata", meta.error))
                else Ok(Item(doc.id, doc.vector, tenant, kb.value, sourceType, sourceKey, chunk.value,
                             doc.content, meta.value))
  }

  /**
   * A document converts iff it has an id and a vector, a non-empty tenant,
   * source type and source key, non-zero kb and chunk ids, and metadata
   * that marshals; the item then carries exactly those values, the
   * document's id, vector and content, and never an empty metadata text.
   */
  lemma DocToItemIff(doc: Doc, show: Any -> string, marshal: Any -> Option<string>)
    ensures var md := doc.metaData; var r := DocToItem(doc, show, marshal);
      var kb := MetaInt64(md, "kb_id"); var chunk := MetaInt64(md, "chunk_id");
      && (r.Ok? <==>
            doc.id != [] && doc.vector != []
            && MetaString(md, "tenant_user_id", show).0 != []
            && kb.Some? && kb.value != 0
            && MetaString(md, "source_type", show).0 != []
            && MetaString(md, "source_key", show).0 != []
            && chunk.Some? && chunk.value != 0
            && MetaJson(md, "metadata", marshal).Ok?)
      && (r.Ok? ==>
            && r.value.id == doc.id && r.value.vector == doc.vector && r.value.content == doc.content
            && r.value.tenantUserId == MetaString(md, "tenant_user_id", show).0
            && r.value.kbId == kb.value && r.value.chunkId == chunk.value
            && r.value.sourceType == MetaString(md, "source_type", show).0
            && r.value.sourceKey == MetaString(md, "source_key", show).0
            && r.value.metadataJson == MetaJson(md, "metadata", marshal).value
            && r.value.metadataJson != [])
  {
  }

  // ---------------------------------------------------------------------
  // Store
  // ---------------------------------------------------------------------

  /** The items of the non-nil documents, in order, or the first conversion error. */
  function Items(docs: seq<Option<Doc>>, show: Any -> string, marshal: Any -> Option<string>): (r: Result<seq<Item>>)
  {
    if docs == [] then Ok([])
    else if docs[0].None? then Items(docs[1..], show, marshal)
    else
      match DocToItem(docs[0].value, show, marshal)
      case Err(e) => Err(e)
      case Ok(it) =>
        match Items(docs[1..], show, marshal)
        case Err(e) => Err(e)
        case Ok(rest) => Ok([it] + rest)
  }

  /** The documents that are not nil. */
  function NonNil(docs: seq<Option<Doc>>): (r: seq<Doc>)
    ensures |r| <= |docs|
  {
    if docs == [] then []
    else (if docs[0].Some? then [docs[0].value] else []) + NonNil(docs[1..])
  }

  /** The items of documents none of which is nil, or the first error. */
  function ConvertAll(ds: seq<Doc>, show: Any -> string, marshal: Any -> Option<string>): Result<seq<Item>>
  {
    if ds == [] then Ok([])
    else
      match DocToItem(ds[0], show, marshal)
      case Err(e) => Err(e)
      case Ok(it) =>
        match ConvertAll(ds[1..], show, marshal)
        case Err(e) => Err(e)
        case Ok(rest) => Ok([it] + rest)
  }

  /** Skipping nil documents on the way is converting the non-nil ones. */
  lemma {:induction false} ItemsSkipNil(docs: seq<Option<Doc>>, show: Any -> string, marshal: Any -> Option<string>)
    ensures Items(docs, show, marshal) == ConvertAll(NonNil(docs), show, marshal)
  {
    if docs != [] {
      ItemsSkipNil(docs[1..], show, marshal);
      var rest := NonNil(docs[1..]);
      if docs[0].Some? {
        var ds := NonNil(docs);
        assert ds == [docs[0].value] + rest;
        assert ds[0] == docs[0].value && ds[1..] == rest;
      } else {
        assert NonNil(docs) == [] + rest == rest;
      }
    }
  }

  /** The conversion succeeds iff every document converts. */
  lemma {:induction false} ConvertAllOkIff(ds: seq<Doc>, show: Any -> string, marshal: Any -> Option<string>)
    ensures ConvertAll(ds, show, marshal).Ok? <==> forall i :: 0 <= i < |ds| ==> DocToItem(ds[i], show, marshal).Ok?
  {
    if ds != [] {
      ConvertAllOkIff(ds[1..], show, marshal);
      assert forall i :: 1 <= i < |ds| ==> ds[i] == ds[1..][i - 1];
    }
  }

  /** On success there is one item per document, that document's item, in order. */
  lemma {:induction false} ConvertAllItems(ds: seq<Doc>, show: Any -> string, marshal: Any -> Option<string>)
    ensures var r := ConvertAll(ds, show, marshal);
      r.Ok? ==> |r.value| == |ds| && forall i :: 0 <= i < |ds| ==> DocToItem(ds[i], show, marshal) == Ok(r.value[i])
  {
    if ds != [] {
      ConvertAllItems(ds[1..], show, marshal);
      var r := ConvertAll(ds, show, marshal);
      if r.Ok? {
        var rest := ConvertAll(ds[1..], show, marshal).value;
        assert r.value == [DocToItem(ds[0], show, marshal).value] + rest;
        forall i | 1 <= i < |ds|
          ensures DocToItem(ds[i], show, marshal) == Ok(r.value[i])
        {
          assert r.value[i] == rest[i - 1] && ds[i] == ds[1..][i - 1];
        }
      }
    }
  }

  /** A converted batch has exactly one item per document that is not nil. */
  lemma {:induction false} ItemsCount(docs: seq<Option<Doc>>, show: Any -> string, marshal: Any -> Option<string>)
    ensures var r := Items(docs, show, marshal); r.Ok? ==> |r.value| == |NonNil(docs)|
  {
    ItemsSkipNil(docs, show, marshal);
    ConvertAllItems(NonNil(docs), show, marshal);
  }

  /** Store: no documents is an empty answer without a call; otherwise the items of the batch are upserted together. */
  function StoreSpec(docs: seq<Option<Doc>>, show: Any -> string, marshal: Any -> Option<string>,
                     upsert: seq<Item> -> Result<seq<string>>): (r: Result<seq<string>>)
    ensures docs == [] ==> r == Ok([])
    ensures Items(docs, show, marshal).Err? ==> r == Err(Items(docs, show, marshal).error)
  {
    if docs == [] then Ok([])
    else
      match Items(docs, show, marshal)
      case Err(e) => Err(e)
      case Ok(items) => upsert(items)
  }

  /**
   * No documents is an empty answer with no upsert; otherwise nil documents
   * are skipped, a document that does not convert fails the whole batch
   * before any upsert, and the items of the others are upserted together,
   * one per document and in order.
   */
  lemma StoreSkipsNil(docs: seq<Option<Doc>>, show: Any -> string, marshal: Any -> Option<string>,
                      upsert: seq<Item> -> Result<seq<string>>)
    ensures docs == [] ==> StoreSpec(docs, show, marshal, upsert) == Ok([])
    ensures var ds := NonNil(docs);
      docs != [] ==>
        && ((exists i :: 0 <= i < |ds| && DocToItem(ds[i], show, marshal).Err?) ==> StoreSpec(docs, show, marshal, upsert).Err?)
        && ((forall i :: 0 <= i < |ds| ==> DocToItem(ds[i], show, marshal).Ok?) ==>
              exists items: seq<Item> ::
                && StoreSpec(docs, show, marshal, upsert) == upsert(items)
                && |items| == |ds|
                && forall i :: 0 <= i < |ds| ==> DocToItem(ds[i], show, marshal) == Ok(items[i]))
  {
    if docs != [] {
      ItemsSkipNil(docs, show, marshal);
      var ds := NonNil(docs);
      ConvertAllOkIff(ds, show, marshal);
      ConvertAllItems(ds, show, marshal);
      var r := ConvertAll(ds, show, marshal);
      if r.Ok? {
        assert StoreSpec(docs, show, marshal, upsert) == upsert(r.value);
      }
    }
  }

  /** The items so far in front of what the rest of the batch gives. */
  function Prepend(items: seq<Item>, r: Result<seq<Item>>): Result<seq<Item>>
  {
    match r
    case Err(e) => Err(e)
    case Ok(rest) => Ok(items + rest)
  }

  /** One step of Store's loop. */
  lemma ItemsStep(docs: seq<Option<Doc>>, i: int, items: seq<Item>, show: Any -> string, marshal: Any -> Option<string>)
    requires 0 <= i < |docs|
    requires Items(docs, show, marshal) == Prepend(items, Items(docs[i..], show, marshal))
    ensures docs[i].None? ==> Items(docs, show, marshal) == Prepend(items, Items(docs[i + 1..], show, marshal))
    ensures docs[i].Some? && DocToItem(docs[i].value, show, marshal).Err? ==>
      Items(docs, show, marshal) == Err(DocToItem(docs[i].value, show, marshal).error)
    ensures docs[i].Some? && DocToItem(docs[i].value, show, marshal).Ok? ==>
      Items(docs, show, marshal)
      == Prepend(items + [DocToItem(docs[i].value, show, marshal).value], Items(docs[i + 1..], show, marshal))
  {
    assert docs[i..][0] == docs[i] && docs[i..][1..] == docs[i + 1..];
    if docs[i].Some? && DocToItem(docs[i].value, show, marshal).Ok? {
      var it := DocToItem(docs[i].value, show, marshal).value;
      match Items(docs[i + 1..], show, marshal)
      case Err(e) =>
      case Ok(rest) =>
        assert items + ([it] + rest) == (items + [it]) + rest;
    }
  }

  /** Store's loop. */
  method Store(docs: seq<Option<Doc>>, show: Any -> string, marshal: Any -> Option<string>,
               upsert: seq<Item> -> Result<seq<string>>)
    returns (r: Result<seq<string>>)
    ensures r == StoreSpec(docs, show, marshal, upsert)
  {
    if |docs| == 0 {
      return Ok([]);
    }
    var items: seq<Item> := [];
    assert docs[0..] == docs;
    match Items(docs, show, marshal) {
      case Err(_) =>
      case Ok(all) => assert [] + all == all;
    }
    for i := 0 to |docs|
      invariant Items(docs, show, marshal) == Prepend(items, Items(docs[i..], show, marshal))
    {
      ItemsStep(docs, i, items, show, marshal);
      if docs[i].None? {
        continue;
      }
      var it := DocToItem(docs[i].value, show, marshal);
      if it.Err? {
        return Err(it.error);
      }
      items := items + [it.value];
    }
    assert docs[|docs|..] == [] && items + [] == items;
    r := upsert(items);
  }
}
