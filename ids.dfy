/**
 * Identifier normalisation: tags and categories are put into the user's
 * namespace (`user/<id>/tag/…`, `user/<id>/category/…`) unless they are
 * already there, feed ids get the `feed/` prefix, and `subscribe` turns
 * category names into `{id, name}` objects.
 */
module Ids {
  import opened Wrappers
  import opened Values
  import opened Text
  import UriEncoding

  const UserPrefix := "user/"
  const FeedPrefix := "feed/"

  /** `s.match(/^user\//)` failing means s is taken as a bare name of this kind. */
  function Qualify(name: string, userid: string, kind: string): (r: string)
    ensures HasPrefix(r, UserPrefix)
    ensures HasPrefix(name, UserPrefix) ==> r == name
    ensures !HasPrefix(name, UserPrefix) ==> HasPrefix(r, UserPrefix + userid + "/" + kind + "/") && r[|UserPrefix + userid + "/" + kind + "/"|..] == name
  {
    var p := UserPrefix + userid + "/" + kind + "/";
    if HasPrefix(name, UserPrefix) then name
    else assert (p + name)[..|p|] == p && (p + name)[|p|..] == name; p + name
  }

  /** Qualifying twice is qualifying once. */
  lemma QualifyIdempotent(name: string, userid: string, kind: string)
    ensures Qualify(Qualify(name, userid, kind), userid, kind) == Qualify(name, userid, kind)
  {
  }

  /** `_normalizeTag`: the qualified tag, percent-encoded as a whole. */
  function NormalizeTag(tag: string, userid: string): (r: string)
    ensures UriEncoding.Unescape(r) == Qualify(tag, userid, "tag")
    ensures '/' !in r && ',' !in r
  {
    var q := Qualify(tag, userid, "tag");
    UriEncoding.UnescapeEncode(q);
    UriEncoding.EncodeHasNoSeparators(q);
    UriEncoding.Encode(q)
  }

  /** Two tags normalise to the same segment only when they qualify to the same name. */
  lemma NormalizeTagInjective(a: string, b: string, userid: string)
    ensures NormalizeTag(a, userid) == NormalizeTag(b, userid) <==> Qualify(a, userid, "tag") == Qualify(b, userid, "tag")
  {
    UriEncoding.EncodeInjective(Qualify(a, userid, "tag"), Qualify(b, userid, "tag"));
  }

  /** `_normalizeTags`: each tag normalised, in order. */
  function NormalizeTags(tags: seq<string>, userid: string): (r: seq<string>)
    ensures |r| == |tags|
    ensures forall i :: 0 <= i < |tags| ==> r[i] == NormalizeTag(tags[i], userid)
  {
    seq(|tags|, i requires 0 <= i < |tags| => NormalizeTag(tags[i], userid))
  }

  /** `_normalizeCategories`: each category qualified (not encoded), in order. */
  function NormalizeCategories(categories: seq<string>, userid: string): (r: seq<string>)
    ensures |r| == |categories|
    ensures forall i :: 0 <= i < |categories| ==> r[i] == Qualify(categories[i], userid, "category")
  {
    seq(|categories|, i requires 0 <= i < |categories| => Qualify(categories[i], userid, "category"))
  }

  lemma NormalizeCategoriesIdempotent(categories: seq<string>, userid: string)
    ensures NormalizeCategories(NormalizeCategories(categories, userid), userid) == NormalizeCategories(categories, userid)
  {
  }

  /** The feed id `subscribe` sends: `feed/` is added exactly when it is missing. */
  function FeedId(url: string): (r: string)
    ensures HasPrefix(r, FeedPrefix)
    ensures HasPrefix(url, FeedPrefix) ==> r == url
    ensures !HasPrefix(url, FeedPrefix) ==> r == FeedPrefix + url
  {
    if HasPrefix(url, FeedPrefix) then url else FeedPrefix + url
  }

  lemma FeedIdIdempotent(url: string)
    ensures FeedId(FeedId(url)) == FeedId(url)
  {
  }

  // ------------------------------------------------ the category pattern

  function FirstIndex(s: string, c: char): (r: Option<nat>)
    ensures r.None? ==> c !in s
    ensures r.Some? ==> r.value < |s| && s[r.value] == c && c !in s[..r.value]
  {
    if s == [] then None
    else if s[0] == c then Some(0)
    else match FirstIndex(s[1..], c)
      case None => None
      case Some(i) => assert s[..i + 1] == [s[0]] + s[1..][..i]; Some(i + 1)
  }

  /** The characters `.` does not match in a JavaScript regular expression. */
  predicate LineTerminator(c: char) {
    c == '\n' || c == '\r' || c == '\U{2028}' || c == '\U{2029}'
  }

  /** What `(.*)` captures: the longest prefix without a line terminator. */
  function UpToLineEnd(s: string): (r: string)
    ensures |r| <= |s| && r == s[..|r|]
    ensures forall i :: 0 <= i < |r| ==> !LineTerminator(r[i])
    ensures |r| < |s| ==> LineTerminator(s[|r|])
  {
    if s == [] || LineTerminator(s[0]) then []
    else [s[0]] + UpToLineEnd(s[1..])
  }

  /**
   * `c.match(/^user\/[^\/]+\/(.*)/)`: the captured group, present exactly
   * when c starts with `user/`, then at least one character other than `/`,
   * then a `/`.
   */
  function MatchQualified(c: string): (r: Option<string>)
    ensures r.Some? <==> HasPrefix(c, UserPrefix) && |c| > 5 && c[5] != '/' && '/' in c[5..]
  {
    if !HasPrefix(c, UserPrefix) then None
    else match FirstIndex(c[5..], '/')
      case None => None
      case Some(i) => if i == 0 then None else Some(UpToLineEnd(c[5..][i + 1..]))
  }

  /** For `user/<x>/<rest>` with a non-empty x, the group is rest up to its first line end. */
  lemma MatchQualifiedShape(x: string, rest: string)
    requires |x| >= 1 && '/' !in x
    ensures MatchQualified(UserPrefix + x + "/" + rest) == Some(UpToLineEnd(rest))
  {
    var c := UserPrefix + x + "/" + rest;
    assert c[5..] == x + "/" + rest;
    var i := FirstIndex(c[5..], '/');
    assert (x + "/" + rest)[|x|] == '/';
    assert i.Some?;
    assert c[5..][|x| + 1..] == rest;
  }

  /** `subscribe`'s mapping of one category: strings become `{id, name}`, anything else is kept. */
  function CategoryObject(c: Json, userid: string): (r: Json)
    ensures !c.Str? ==> r == c
    ensures c.Str? && MatchQualified(c.s).None? ==>
      r == Obj(map["id" := Str(UserPrefix + userid + "/category/" + c.s), "name" := c])
    ensures c.Str? && MatchQualified(c.s).Some? ==>
      r == Obj(map["id" := c, "name" := Str(MatchQualified(c.s).value)])
  {
    match c
    case Str(s) =>
      (match MatchQualified(s)
       case None => Obj(map["id" := Str(UserPrefix + userid + "/category/" + s), "name" := Str(s)])
       case Some(name) => Obj(map["id" := Str(s), "name" := Str(name)]))
    case _ => c
  }

  /** A qualified `user/<x>/<rest>` keeps its id and is named by `rest` up to its first line end. */
  lemma CategoryObjectCases(c: Json, userid: string, x: string, rest: string)
    ensures |x| >= 1 && '/' !in x && c == Str(UserPrefix + x + "/" + rest) ==>
      CategoryObject(c, userid) == Obj(map["id" := c, "name" := Str(UpToLineEnd(rest))])
  {
    if |x| >= 1 && '/' !in x && c == Str(UserPrefix + x + "/" + rest) {
      MatchQualifiedShape(x, rest);
    }
  }

  /**
   * `subscribe` and `_normalizeCategories` agree on the category id, except
   * on a name that starts with `user/` but has no further `/…` part.
   */
  lemma CategoryIdsAgree(s: string, userid: string)
    requires !HasPrefix(s, UserPrefix) || MatchQualified(s).Some?
    ensures CategoryObject(Str(s), userid).fields["id"] == Str(Qualify(s, userid, "category"))
  {
  }

  /**
   * A name that starts with `user/` but does not match the pattern is kept
   * by `_normalizeCategories` and prefixed again by `subscribe`.
   */
  lemma CategoryIdsDisagreeOnUnmatched(s: string, userid: string)
    requires HasPrefix(s, UserPrefix) && MatchQualified(s).None?
    ensures CategoryObject(Str(s), userid).fields["id"] == Str(UserPrefix + userid + "/category/" + s)
    ensures Qualify(s, userid, "category") == s
    ensures CategoryObject(Str(s), userid).fields["id"] != Str(Qualify(s, userid, "category"))
  {
    var p := UserPrefix + userid + "/category/";
    assert |p + s| > |s|;
  }

  /** `user/x`, `user/` and `user//y` are such names. */
  lemma UnmatchedUserNames()
    ensures MatchQualified("user/x").None? && MatchQualified("user/").None? && MatchQualified("user//y").None?
    ensures HasPrefix("user/x", UserPrefix) && HasPrefix("user/", UserPrefix) && HasPrefix("user//y", UserPrefix)
  {
    assert "user/x"[..5] == UserPrefix && "user/x"[5..] == "x";
    assert "user/"[..5] == UserPrefix;
    assert "user//y"[..5] == UserPrefix && "user//y"[5] == '/';
  }
}
