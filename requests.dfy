/**
 * The requests the REST operations hand to the authenticated dispatcher: a
 * verb, a path under `/v3/`, and a payload sent either as the JSON body
 * (`_request`) or as the query string (`_requestURL`). Identifiers that go
 * into a path are percent-encoded. `userid` is the client's session `id` as
 * it reads inside a string, `Session.UserId(state)`, taken from the record
 * when the call is made.
 */
module Requests {
  import opened Wrappers
  import opened Values
  import opened Text
  import opened Ids
  import UriEncoding

  datatype Verb = Get | Post | Put | Delete

  datatype Payload = AsBody(body: Json) | AsQuery(query: Json)

  datatype Request = Request(verb: Verb, path: string, payload: Payload)

  /** An argument that may be one string or a list of strings. */
  datatype Names = One(name: string) | Many(names: seq<string>)

  function List(n: Names): (r: seq<string>)
    ensures n.One? ==> r == [n.name]
    ensures n.Many? ==> r == n.names
  {
    match n
    case One(s) => [s]
    case Many(ss) => ss
  }

  /** `if (typeof ids === 'string') ids = [ids]`: other values pass unchanged. */
  function WrapIds(ids: Json): (r: Json)
    ensures ids.Str? ==> r == Arr([ids])
    ensures !ids.Str? ==> r == ids
  {
    if ids.Str? then Arr([ids]) else ids
  }

  const MarkersPath := "/v3/markers"

  // ---------------------------------------------------------------- counts

  /** `counts`: the query holds exactly the arguments given, and is null when none is. */
  method Counts(autorefresh: Json, newerThan: Option<int>, streamId: Json) returns (req: Request)
    ensures req.verb == Get && req.path == "/v3/markers/counts" && req.payload.AsBody?
    ensures req.payload.body == Null <==> autorefresh == Null && newerThan.None? && streamId == Null
    ensures req.payload.body != Null ==> req.payload.body.Obj?
    ensures req.payload.body.Obj? ==>
      var m := req.payload.body.fields;
      && m.Keys <= {"autorefresh", "newerThan", "streamId"}
      && ("autorefresh" in m <==> autorefresh != Null)
      && ("autorefresh" in m ==> m["autorefresh"] == autorefresh)
      && ("newerThan" in m <==> newerThan.Some?)
      && ("newerThan" in m ==> m["newerThan"] == Num(newerThan.value))
      && ("streamId" in m <==> streamId != Null)
      && ("streamId" in m ==> m["streamId"] == streamId)
  {
    var input: map<string, Json> := map[];
    var found := false;
    if autorefresh != Null {
      input := input["autorefresh" := autorefresh];
      found := true;
    }
    if newerThan.Some? {
      input := input["newerThan" := Num(newerThan.value)];
      found := true;
    }
    if streamId != Null {
      input := input["streamId" := streamId];
      found := true;
    }
    var body := Obj(input);
    if !found {
      body := Null;
    }
    req := Request(Get, "/v3/markers/counts", AsBody(body));
  }

  // --------------------------------------------------------------- markers

  /** The body shared by the entry markers. */
  function EntryMarker(ids: Json, action: string): Request {
    Request(Post, MarkersPath, AsBody(Obj(map["entryIds" := WrapIds(ids), "type" := Str("entries"), "action" := Str(action)])))
  }

  /** `markEntryRead`: a string id is sent as a one-element list, with action `markAsRead`. */
  function MarkEntryRead(ids: Json): (r: Request)
    ensures r.payload.AsBody? && r.payload.body.Obj?
    ensures r.payload.body.fields.Keys == {"entryIds", "type", "action"}
    ensures r.verb == Post && r.path == MarkersPath
    ensures r.payload.body.fields["action"] == Str("markAsRead")
    ensures r.payload.body.fields["type"] == Str("entries")
    ensures ids.Str? ==> r.payload.body.fields["entryIds"] == Arr([ids])
    ensures !ids.Str? ==> r.payload.body.fields["entryIds"] == ids
  {
    EntryMarker(ids, "markAsRead")
  }

  /** `markEntryUnread`: the same body with action `keepUnread`. */
  function MarkEntryUnread(ids: Json): (r: Request)
    ensures r.payload.AsBody? && r.payload.body.Obj?
    ensures r.payload.body.fields.Keys == {"entryIds", "type", "action"}
    ensures r.verb == Post && r.path == MarkersPath
    ensures r.payload.body.fields["action"] == Str("keepUnread")
    ensures r.payload.body.fields["type"] == Str("entries")
    ensures ids.Str? ==> r.payload.body.fields["entryIds"] == Arr([ids])
    ensures !ids.Str? ==> r.payload.body.fields["entryIds"] == ids
  {
    EntryMarker(ids, "keepUnread")
  }

  /** `since.getTime()` on a Date; NaN (written as null) for anything else. */
  function GetTime(since: Value): Json {
    if since.Date? then Num(since.ms) else Null
  }

  /** A held value as a JSON field: a plain value as it is, anything else as null. */
  function AsJson(since: Value): Json {
    if since.Plain? then since.json else Null
  }

  /**
   * `markFeedRead` as written: both `since` branches test
   * `typeof since === 'Date'`, which never holds, so the body never gets
   * `asOf` nor `lastReadEntryId`.
   */
  method MarkFeedRead(ids: Json, since: Value) returns (req: Request)
    ensures req.verb == Post && req.path == MarkersPath
    ensures req.payload == AsBody(Obj(map["feedIds" := WrapIds(ids), "type" := Str("feeds"), "action" := Str("markAsRead")]))
  {
    var body := map["feedIds" := WrapIds(ids), "type" := Str("feeds"), "action" := Str("markAsRead")];
    if TypeOf(since) == "Date" {
      body := body["asOf" := GetTime(since)];
    } else if TypeOf(since) == "Date" {
      body := body["lastReadEntryId" := AsJson(since)];
    }
    req := Request(Post, MarkersPath, AsBody(Obj(body)));
  }

  /** `markCategoryRead` as written: the categories qualified, and `since` ignored as in MarkFeedRead. */
  method MarkCategoryRead(ids: Names, since: Value, userid: string) returns (req: Request)
    ensures req.verb == Post && req.path == MarkersPath
    ensures req.payload == AsBody(Obj(map[
      "categoryIds" := Arr(Strs(NormalizeCategories(List(ids), userid))),
      "type" := Str("categories"),
      "action" := Str("markAsRead")]))
  {
    var body := map[
      "categoryIds" := Arr(Strs(NormalizeCategories(List(ids), userid))),
      "type" := Str("categories"),
      "action" := Str("markAsRead")];
    if TypeOf(since) == "Date" {
      body := body["asOf" := GetTime(since)];
    } else if TypeOf(since) == "Date" {
      body := body["lastReadEntryId" := AsJson(since)];
    }
    req := Request(Post, MarkersPath, AsBody(Obj(body)));
  }

  /** A Date is never of type "Date": the guard of both `since` branches is false even for a Date. */
  lemma SinceDateIsDropped(t: int)
    ensures TypeOf(Date(t)) != "Date"
    ensures "asOf" in SinceFields(Date(t)) && SinceFields(Date(t))["asOf"] == Num(t)
  {
  }

  /** The fields the `since` argument evidently should add: a Date as `asOf`, an entry id as `lastReadEntryId`. */
  function SinceFields(since: Value): (r: map<string, Json>)
    ensures r.Keys <= {"asOf", "lastReadEntryId"}
    ensures "asOf" in r <==> since.Date?
    ensures "asOf" in r ==> r["asOf"] == Num(since.ms)
    ensures "lastReadEntryId" in r <==> since.Plain? && since.json.Str?
    ensures "lastReadEntryId" in r ==> r["lastReadEntryId"] == since.json
  {
    match since
    case Date(ms) => map["asOf" := Num(ms)]
    case Plain(Str(id)) => map["lastReadEntryId" := Str(id)]
    case _ => map[]
  }

  /** `markFeedRead` with the `since` argument honoured. */
  function MarkFeedReadIntended(ids: Json, since: Value): (r: Request)
    ensures r.verb == Post && r.path == MarkersPath && r.payload.AsBody? && r.payload.body.Obj?
    ensures r.payload.body.fields.Keys == {"feedIds", "type", "action"} + SinceFields(since).Keys
    ensures r.payload.body.fields["feedIds"] == WrapIds(ids)
    ensures r.payload.body.fields["type"] == Str("feeds") && r.payload.body.fields["action"] == Str("markAsRead")
    ensures since.Date? ==> r.payload.body.fields["asOf"] == Num(since.ms)
    ensures since.Plain? && since.json.Str? ==> r.payload.body.fields["lastReadEntryId"] == since.json
  {
    var body := map["feedIds" := WrapIds(ids), "type" := Str("feeds"), "action" := Str("markAsRead")];
    Request(Post, MarkersPath, AsBody(Obj(body + SinceFields(since))))
  }

  /** `markCategoryRead` with the `since` argument honoured. */
  function MarkCategoryReadIntended(ids: Names, since: Value, userid: string): (r: Request)
    ensures r.verb == Post && r.path == MarkersPath && r.payload.AsBody? && r.payload.body.Obj?
    ensures r.payload.body.fields.Keys == {"categoryIds", "type", "action"} + SinceFields(since).Keys
    ensures r.payload.body.fields["categoryIds"] == Arr(Strs(NormalizeCategories(List(ids), userid)))
    ensures r.payload.body.fields["type"] == Str("categories") && r.payload.body.fields["action"] == Str("markAsRead")
    ensures since.Date? ==> r.payload.body.fields["asOf"] == Num(since.ms)
    ensures since.Plain? && since.json.Str? ==> r.payload.body.fields["lastReadEntryId"] == since.json
  {
    var body := map[
      "categoryIds" := Arr(Strs(NormalizeCategories(List(ids), userid))),
      "type" := Str("categories"),
      "action" := Str("markAsRead")];
    Request(Post, MarkersPath, AsBody(Obj(body + SinceFields(since))))
  }

  function Strs(ss: seq<string>): (r: seq<Json>)
    ensures |r| == |ss| && forall i :: 0 <= i < |ss| ==> r[i] == Str(ss[i])
  {
    seq(|ss|, i requires 0 <= i < |ss| => Str(ss[i]))
  }

  // -------------------------------------------------------------- streams

  const StreamsPrefix := "/v3/streams/"

  /** `stream`: a string option is a continuation; null, arrays and objects are sent as they are; otherwise `{}`. */
  function Stream(id: string, options: Option<Json>): (r: Request)
    ensures r.verb == Get && r.path == StreamsPrefix + UriEncoding.Encode(id) + "/ids" && r.payload.AsQuery?
    ensures options.Some? && options.value.Str? ==> r.payload.query == Obj(map["continuation" := options.value])
    ensures options.Some? && (options.value.Null? || options.value.Arr? || options.value.Obj?) ==> r.payload.query == options.value
    ensures options.None? || options.value.Bool? || options.value.Num? ==> r.payload.query == Obj(map[])
  {
    var input :=
      match options
      case None => Obj(map[])
      case Some(Str(s)) => Obj(map["continuation" := Str(s)])
      case Some(Bool(_)) => Obj(map[])
      case Some(Num(_)) => Obj(map[])
      case Some(o) => o;
    Request(Get, StreamsPrefix + UriEncoding.Encode(id) + "/ids", AsQuery(input))
  }

  /** `contents`: the continuation is added only when given, and the payload goes in the body. */
  function Contents(id: string, continuation: Json): (r: Request)
    ensures r.verb == Get && r.path == StreamsPrefix + UriEncoding.Encode(id) + "/contents"
    ensures r.payload.AsBody? && r.payload.body.Obj?
    ensures "continuation" in r.payload.body.fields <==> continuation != Null
    ensures r.payload.body.fields.Keys <= {"continuation"}
    ensures continuation != Null ==> r.payload.body.fields["continuation"] == continuation
  {
    var input := if continuation != Null then map["continuation" := continuation] else map[];
    Request(Get, StreamsPrefix + UriEncoding.Encode(id) + "/contents", AsBody(Obj(input)))
  }

  /** The stream path names the stream: different ids never share a path. */
  lemma StreamPathIdentifiesStream(a: string, b: string, optionsA: Option<Json>, optionsB: Option<Json>)
    requires Stream(a, optionsA).path == Stream(b, optionsB).path
    ensures a == b
  {
    var p := Stream(a, optionsA).path;
    var ea, eb := UriEncoding.Encode(a), UriEncoding.Encode(b);
    assert |ea| == |eb|;
    assert ea == p[|StreamsPrefix|..|p| - 4];
    assert eb == p[|StreamsPrefix|..|p| - 4];
    UriEncoding.EncodeInjective(a, b);
  }

  // ---------------------------------------------------------- subscriptions

  /** The list a scalar category argument becomes. */
  function CategoryList(categories: Json): seq<Json> {
    if categories.Arr? then categories.items else [categories]
  }

  /**
   * `subscribe`: the feed id with its `feed/` prefix, and, when categories
   * are given, each string category as an `{id, name}` object.
   */
  method Subscribe(url: string, categories: Json, userid: string) returns (req: Request)
    ensures req.verb == Post && req.path == "/v3/subscriptions"
    ensures req.payload.AsBody? && req.payload.body.Obj?
    ensures var m := req.payload.body.fields;
      && m.Keys <= {"id", "categories"}
      && "id" in m && m["id"] == Str(FeedId(url))
      && ("categories" in m <==> categories != Null)
    ensures categories != Null ==>
      var m := req.payload.body.fields;
      && m["categories"].Arr?
      && |m["categories"].items| == |CategoryList(categories)|
      && forall i :: 0 <= i < |CategoryList(categories)| ==>
           m["categories"].items[i] == CategoryObject(CategoryList(categories)[i], userid)
  {
    var id := url;
    if !HasPrefix(id, FeedPrefix) {
      id := FeedPrefix + id;
    }
    var input := map["id" := Str(id)];
    if categories != Null {
      var list := categories;
      if !list.Arr? {
        list := Arr([list]);
      }
      var items := list.items;
      var mapped := seq(|items|, i requires 0 <= i < |items| => CategoryObject(items[i], userid));
      input := input["categories" := Arr(mapped)];
    }
    req := Request(Post, "/v3/subscriptions", AsBody(Obj(input)));
  }

  // ------------------------------------------------------------------ tags

  const TagsPrefix := "/v3/tags/"

  /** The tag list of a path: normalised tags joined by commas. */
  function TagSegment(tags: Names, userid: string): string {
    Join(NormalizeTags(List(tags), userid), ',')
  }

  /** `tagEntry`: PUT to the tags' path, with `entryIds` for a list of entries and `entryId` otherwise. */
  function TagEntry(entry: Json, tags: Names, userid: string): (r: Request)
    ensures r.verb == Put && r.path == TagsPrefix + TagSegment(tags, userid)
    ensures entry.Arr? ==> r.payload == AsBody(Obj(map["entryIds" := entry]))
    ensures !entry.Arr? ==> r.payload == AsBody(Obj(map["entryId" := entry]))
  {
    var path := TagsPrefix + TagSegment(tags, userid);
    if entry.Arr? then Request(Put, path, AsBody(Obj(map["entryIds" := entry])))
    else Request(Put, path, AsBody(Obj(map["entryId" := entry])))
  }

  /** `setTagLabel`: POST the label to the one normalised tag. */
  function SetTagLabel(tag: string, text: Json, userid: string): (r: Request)
    ensures r.verb == Post && r.payload == AsBody(Obj(map["label" := text]))
    ensures r.path == TagsPrefix + NormalizeTag(tag, userid)
    ensures HasPrefix(r.path, TagsPrefix)
    ensures UriEncoding.Unescape(r.path[|TagsPrefix|..]) == Qualify(tag, userid, "tag")
    ensures '/' !in r.path[|TagsPrefix|..]
  {
    var path := TagsPrefix + NormalizeTag(tag, userid);
    assert path[|TagsPrefix|..] == NormalizeTag(tag, userid);
    Request(Post, path, AsBody(Obj(map["label" := text])))
  }

  /** The encoded entry list of an untag path. */
  function EntrySegment(entries: Names): string {
    var es := List(entries);
    Join(seq(|es|, i requires 0 <= i < |es| => UriEncoding.Encode(es[i])), ',')
  }

  /** `untagEntries`: DELETE on `/v3/tags/<tags>/<entries>`. */
  function UntagEntries(entries: Names, tags: Names, userid: string): (r: Request)
    ensures r.verb == Delete && r.payload == AsBody(Null)
    ensures r.path == TagsPrefix + TagSegment(tags, userid) + "/" + EntrySegment(entries)
  {
    Request(Delete, TagsPrefix + TagSegment(tags, userid) + "/" + EntrySegment(entries), AsBody(Null))
  }

  /** `deleteTags`: DELETE on the tags' path. */
  function DeleteTags(tags: Names, userid: string): (r: Request)
    ensures r.verb == Delete && r.payload == AsBody(Null)
    ensures r.path == TagsPrefix + TagSegment(tags, userid)
  {
    Request(Delete, TagsPrefix + TagSegment(tags, userid), AsBody(Null))
  }

  /** The tag segment of a path gives back, tag by tag, the qualified names. */
  lemma TagSegmentRecoversTags(tags: Names, userid: string)
    requires |List(tags)| >= 1
    ensures '/' !in TagSegment(tags, userid)
    ensures Split(TagSegment(tags, userid), ',') == NormalizeTags(List(tags), userid)
    ensures forall i :: 0 <= i < |List(tags)| ==>
      UriEncoding.Unescape(Split(TagSegment(tags, userid), ',')[i]) == Qualify(List(tags)[i], userid, "tag")
  {
    var ns := NormalizeTags(List(tags), userid);
    SplitJoin(ns, ',');
    JoinAvoids(ns, ',', '/');
  }

  /** The entry segment of an untag path gives back, entry by entry, the entry ids. */
  lemma EntrySegmentRecoversEntries(entries: Names)
    requires |List(entries)| >= 1
    ensures '/' !in EntrySegment(entries)
    ensures |Split(EntrySegment(entries), ',')| == |List(entries)|
    ensures forall i :: 0 <= i < |List(entries)| ==>
      UriEncoding.Unescape(Split(EntrySegment(entries), ',')[i]) == List(entries)[i]
  {
    var es := List(entries);
    var encoded := seq(|es|, i requires 0 <= i < |es| => UriEncoding.Encode(es[i]));
    forall i | 0 <= i < |es|
      ensures ',' !in encoded[i] && '/' !in encoded[i]
      ensures UriEncoding.Unescape(encoded[i]) == es[i]
    {
      UriEncoding.EncodeHasNoSeparators(es[i]);
      UriEncoding.UnescapeEncode(es[i]);
    }
    SplitJoin(encoded, ',');
    JoinAvoids(encoded, ',', '/');
  }

  /** An untag path splits at its one `/` after the prefix into the tag and the entry segments. */
  lemma UntagPathParts(entries: Names, tags: Names, userid: string)
    requires |List(tags)| >= 1 && |List(entries)| >= 1
    ensures Split(TagSegment(tags, userid) + "/" + EntrySegment(entries), '/') == [TagSegment(tags, userid), EntrySegment(entries)]
  {
    var t, e := TagSegment(tags, userid), EntrySegment(entries);
    TagSegmentRecoversTags(tags, userid);
    EntrySegmentRecoversEntries(entries);
    SplitAfterFirst(t, e, '/');
    SplitNoSeparator(e, '/');
  }
}
