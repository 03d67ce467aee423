/** A MongoDB collection as the driver presents it to the repositories: documents in insertion
    (natural) order. Every operation takes `fault`, the driver or server error the call ends with,
    if any; a failed operation changes nothing. */
module Mongo {
  import opened Wrappers
  import opened Bson
  import Seqs

  const ErrNoDocuments := "mongo: no documents in result"

  /** UpdateOne's counts. */
  datatype UpdateResult = UpdateResult(matched: int, modified: int, upserted: bool)

  /** The driver adds a fresh ObjectID under "_id" to a document that has none. */
  function WithObjectId(doc: Doc, freshId: string): (r: Doc)
    ensures "_id" in r && r.Keys == doc.Keys + {"_id"}
    ensures forall k :: k in doc ==> r[k] == doc[k]
    ensures "_id" !in doc ==> r["_id"] == ObjectId(freshId)
  {
    if "_id" in doc then doc else doc["_id" := ObjectId(freshId)]
  }

  function FirstMatch(docs: seq<Doc>, key: string, v: Value): (r: Option<nat>)
    ensures r.Some? ==> r.value < |docs| && Matches(docs[r.value], key, v)
                        && forall j :: 0 <= j < r.value ==> !Matches(docs[j], key, v)
    ensures r.None? <==> forall j :: 0 <= j < |docs| ==> !Matches(docs[j], key, v)
  {
    Seqs.FirstWhere(docs, (d: Doc) => Matches(d, key, v))
  }

  /** The documents DeleteMany keeps. */
  function Unmatched(docs: seq<Doc>, key: string, v: Value): (r: seq<Doc>)
    ensures forall k :: 0 <= k < |r| ==> !Matches(r[k], key, v)
    ensures |r| + Seqs.CountWhere(docs, (d: Doc) => Matches(d, key, v)) == |docs|
  {
    Seqs.FilterComplementCount(docs, (d: Doc) => Matches(d, key, v), (d: Doc) => !Matches(d, key, v));
    Seqs.Filter(docs, (d: Doc) => !Matches(d, key, v))
  }

  class Collection {
    var docs: seq<Doc>

    constructor ()
      ensures docs == []
    {
      docs := [];
    }

    /** InsertOne: appends the document, with a fresh "_id" when it has none, and returns that "_id". */
    method InsertOne(doc: Doc, freshId: string, fault: Option<string>) returns (r: Result<Value>)
      modifies this
      ensures fault.Some? ==> r == Err(fault.value) && docs == old(docs)
      ensures fault.None? ==> docs == old(docs) + [WithObjectId(doc, freshId)]
                              && r == Ok(WithObjectId(doc, freshId)["_id"])
    {
      if fault.Some? {
        return Err(fault.value);
      }
      var stored := WithObjectId(doc, freshId);
      docs := docs + [stored];
      r := Ok(stored["_id"]);
    }

    /** FindOne with an equality filter: the first matching document in natural order. */
    function FindOne(key: string, v: Value, fault: Option<string>): (r: Result<Doc>)
      reads this
      ensures fault.Some? ==> r == Err(fault.value)
      ensures fault.None? && r.Ok? ==> exists j :: 0 <= j < |docs| && docs[j] == r.value && Matches(docs[j], key, v)
      ensures fault.None? ==> (r == Err(ErrNoDocuments) <==> forall j :: 0 <= j < |docs| ==> !Matches(docs[j], key, v))
    {
      if fault.Some? then Err(fault.value)
      else match FirstMatch(docs, key, v)
        case None => Err(ErrNoDocuments)
        case Some(i) => Ok(docs[i])
    }

    /** Find with the empty filter: every document in natural order. */
    function FindAll(fault: Option<string>): (r: Result<seq<Doc>>)
      reads this
      ensures fault.Some? ==> r == Err(fault.value)
      ensures fault.None? ==> r == Ok(docs)
    {
      if fault.Some? then Err(fault.value) else Ok(docs)
    }

    /** CountDocuments with an equality filter. */
    function CountDocuments(key: string, v: Value, fault: Option<string>): (r: Result<int>)
      reads this
      ensures fault.Some? ==> r == Err(fault.value)
      ensures fault.None? ==> r.Ok? && 0 <= r.value <= |docs|
      ensures fault.None? ==> (r.value == 0 <==> forall j :: 0 <= j < |docs| ==> !Matches(docs[j], key, v))
    {
      if fault.Some? then Err(fault.value)
      else Ok(Seqs.CountWhere(docs, (d: Doc) => Matches(d, key, v)))
    }

    /** DeleteMany with an equality filter: removes every matching document, keeps the rest in order,
        and returns how many went. */
    method DeleteMany(key: string, v: Value, fault: Option<string>) returns (r: Result<int>)
      modifies this
      ensures fault.Some? ==> r == Err(fault.value) && docs == old(docs)
      ensures fault.None? ==> docs == Unmatched(old(docs), key, v) && r == Ok(|old(docs)| - |docs|)
    {
      if fault.Some? {
        return Err(fault.value);
      }
      var before := |docs|;
      docs := Unmatched(docs, key, v);
      r := Ok(before - |docs|);
    }

    /** UpdateOne with `$set`: the first matching document gets the fields; `modified` counts it only
        when that changes it. With no match and `upsert`, the filter field plus the fields are inserted
        as a new document. */
    method UpdateOne(key: string, v: Value, fields: Doc, upsert: bool, freshId: string, fault: Option<string>)
      returns (r: Result<UpdateResult>)
      modifies this
      ensures fault.Some? ==> r == Err(fault.value) && docs == old(docs)
      ensures fault.None? ==> docs == Updated(old(docs), key, v, fields, upsert, freshId)
      ensures fault.None? ==> r == Ok(Counts(old(docs), key, v, fields, upsert))
    {
      if fault.Some? {
        return Err(fault.value);
      }
      var found := FirstMatch(docs, key, v);
      match found {
        case Some(i) =>
          var changed := SetFields(docs[i], fields);
          var modified := if changed != docs[i] then 1 else 0;
          docs := docs[i := changed];
          r := Ok(UpdateResult(1, modified, false));
        case None =>
          if upsert {
            docs := docs + [WithObjectId(SetFields(map[key := v], fields), freshId)];
          }
          r := Ok(UpdateResult(0, 0, upsert));
      }
    }
  }

  /** The collection after a successful UpdateOne. */
  function Updated(docs: seq<Doc>, key: string, v: Value, fields: Doc, upsert: bool, freshId: string): (r: seq<Doc>)
    ensures |r| == |docs| + (if upsert && FirstMatch(docs, key, v).None? then 1 else 0)
    ensures forall j :: 0 <= j < |docs| && (FirstMatch(docs, key, v).None? || j != FirstMatch(docs, key, v).value)
              ==> r[j] == docs[j]
  {
    match FirstMatch(docs, key, v)
    case Some(i) => docs[i := SetFields(docs[i], fields)]
    case None => if upsert then docs + [WithObjectId(SetFields(map[key := v], fields), freshId)] else docs
  }

  /** The counts of a successful UpdateOne. */
  function Counts(docs: seq<Doc>, key: string, v: Value, fields: Doc, upsert: bool): (c: UpdateResult)
    ensures c.matched <= 1 && c.modified <= c.matched
    ensures c.upserted ==> upsert && c.matched == 0
  {
    match FirstMatch(docs, key, v)
    case Some(i) => UpdateResult(1, if SetFields(docs[i], fields) != docs[i] then 1 else 0, false)
    case None => UpdateResult(0, 0, upsert)
  }

  /** matched is 1 exactly when some document matches; modified is 1 exactly when the first match has
      a field whose value `$set` changes (or lacks one it sets); otherwise the document is left as it was. */
  lemma UpdateCounts(docs: seq<Doc>, key: string, v: Value, fields: Doc, upsert: bool, freshId: string)
    ensures var c := Counts(docs, key, v, fields, upsert);
            && (c.matched == 1 <==> exists j :: 0 <= j < |docs| && Matches(docs[j], key, v))
            && (c.matched == 0 ==> c.modified == 0)
            && (c.matched == 1 ==>
                  var i := FirstMatch(docs, key, v).value;
                  (c.modified == 1 <==> exists k :: k in fields && (k !in docs[i] || docs[i][k] != fields[k])))
            && (c.matched == 1 && c.modified == 0 ==> Updated(docs, key, v, fields, upsert, freshId) == docs)
            && (c.matched == 0 ==> c.upserted == upsert)
            && (c.matched == 0 && !upsert ==> Updated(docs, key, v, fields, upsert, freshId) == docs)
            && (c.matched == 0 && upsert ==>
                  Updated(docs, key, v, fields, upsert, freshId)
                  == docs + [WithObjectId(SetFields(map[key := v], fields), freshId)])
  {
    match FirstMatch(docs, key, v)
    case None =>
    case Some(i) =>
      var d := docs[i];
      if exists k :: k in fields && (k !in d || d[k] != fields[k]) {
        var k :| k in fields && (k !in d || d[k] != fields[k]);
        assert SetFields(d, fields)[k] == fields[k];
      } else {
        assert SetFields(d, fields) == d;
        assert docs[i := d] == docs;
      }
  }

  /** DeleteMany reports exactly the number of matching documents, and 0 exactly when none matched. */
  lemma DeleteCount(docs: seq<Doc>, key: string, v: Value)
    ensures |docs| - |Unmatched(docs, key, v)| == Seqs.CountWhere(docs, (d: Doc) => Matches(d, key, v))
    ensures |docs| - |Unmatched(docs, key, v)| == 0 <==> forall j :: 0 <= j < |docs| ==> !Matches(docs[j], key, v)
  {
  }
}
