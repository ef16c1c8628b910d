/**
 * The query repair that `api/oauth.py` and `api/debug.py` share: clients
 * sometimes send `/oauth?action=authorize?response_type=code&...` or encode
 * the separators, so everything after the first `?` is taken as the query and
 * every later `?`, every `%3F` and every `%26` becomes `&`, every `%3D`
 * becomes `=`, before `parse_qs` reads it.
 */
module QueryNormal {
  import opened Wrappers
  import opened Strings
  import opened UrlCodec

  /** The four chained `str.replace` calls, in their order. */
  function NormalizeQuery(q: string): string {
    ReplaceAll(ReplaceAll(ReplaceAll(ReplaceAll(q, "?", "&"), "%3F", "&"), "%3D", "="), "%26", "&")
  }

  /** The text after the first `?` of the path, when there is one. */
  function QueryAfterFirst(path: string): Option<string> {
    SplitFirst(path, '?').1
  }

  /** `parse_qs` of the repaired query, or no parameters for a path without `?`. */
  function NormalizedParams(path: string): seq<(string, string)> {
    match QueryAfterFirst(path)
      case None => []
      case Some(q) => ParseQs(NormalizeQuery(q))
  }

  /** A path without `?` has no parameters, so every parameter reads as its default. */
  lemma NoQueryNoParams(path: string, name: string, default: string)
    requires '?' !in path
    ensures NormalizedParams(path) == []
    ensures QsFirst(NormalizedParams(path), name, default) == default
  {
  }

  /** Only the text after the first `?` counts: whatever precedes it is ignored. */
  lemma OnlyQueryCounts(base: string, base': string, q: string)
    requires '?' !in base && '?' !in base'
    ensures NormalizedParams(base + "?" + q) == NormalizedParams(base' + "?" + q)
    ensures NormalizedParams(base + "?" + q) == ParseQs(NormalizeQuery(q))
  {
    SplitFirstAt(base, '?', q);
    SplitFirstAt(base', '?', q);
  }

  /** No `?` survives the repair, so none can end up inside a parameter. */
  lemma NoQuestionMarkSurvives(q: string)
    ensures '?' !in NormalizeQuery(q)
  {
    var s1 := ReplaceAll(q, "?", "&");
    ReplaceAllRemovesChar(q, '?', "&");
    assert "?" == ['?'];
    var s2 := ReplaceAll(s1, "%3F", "&");
    ReplaceAllChars(s1, "%3F", "&", '?');
    var s3 := ReplaceAll(s2, "%3D", "=");
    ReplaceAllChars(s2, "%3D", "=", '?');
    ReplaceAllChars(s3, "%26", "&", '?');
  }

  /** A later `?` is read exactly as an `&` would be. */
  lemma QuestionMarkIsSeparator(q: string)
    ensures NormalizeQuery(ReplaceAll(q, "?", "&")) == NormalizeQuery(q)
  {
    var s1 := ReplaceAll(q, "?", "&");
    assert "?" == ['?'];
    ReplaceAllRemovesChar(q, '?', "&");
    ReplaceAllAbsent(s1, "?", "&");
  }

  /** A well-formed query, with none of the repaired patterns in it, is read unchanged. */
  lemma WellFormedQueryUnchanged(q: string)
    requires !Contains(q, "?") && !Contains(q, "%3F") && !Contains(q, "%3D") && !Contains(q, "%26")
    ensures NormalizeQuery(q) == q
  {
    ReplaceAllAbsent(q, "?", "&");
    ReplaceAllAbsent(q, "%3F", "&");
    ReplaceAllAbsent(q, "%3D", "=");
    ReplaceAllAbsent(q, "%26", "&");
  }
}
