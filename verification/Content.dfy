/** Post versions and the text a job publishes (cmd/worker/main.go:387-452). */
module Content {
  import opened Base
  import opened Providers

  /** A post_versions row; `content` is JNull where the column holds JSON null. */
  datatype Version = Version(post: int, account: int, isOriginal: bool, content: Json)

  // ---------- extractBodyFromVersionContent ----------

  /** The "body" string of an object, trimmed; "" if there is none. */
  function BodyField(j: Json): string {
    if j.JObject? then LookupString(j.fields, "body") else ""
  }

  /** Go decodes into []map[string]any only if every element is an object or null. */
  predicate DecodesAsObjectList(j: Json) {
    j.JArray? && forall i | 0 <= i < |j.items| :: j.items[i].JObject? || j.items[i].JNull?
  }

  function ExtractBody(content: Json): (r: Result<string, Error>)
    ensures r.Ok? ==> Trimmed(r.value) && r.value != ""
    ensures r.Err? ==> r.error == InvalidContent
  {
    if BodyField(content) != "" then Ok(BodyField(content))
    else if DecodesAsObjectList(content) && |content.items| > 0 && BodyField(content.items[0]) != ""
    then Ok(BodyField(content.items[0]))
    else if content.JString? && Trim(content.text) != "" then Ok(Trim(content.text))
    else Err(InvalidContent)
  }

  /** Which content carries a given text, independently of the decoding order. */
  ghost predicate Carries(content: Json, raw: string) {
    || content == JString(raw)
    || (content.JObject? && "body" in content.fields && content.fields["body"] == JString(raw))
    || (content.JArray? && |content.items| > 0
        && (forall item :: item in content.items ==> item.JObject? || item.JNull?)
        && content.items[0].JObject? && "body" in content.items[0].fields
        && content.items[0].fields["body"] == JString(raw))
  }

  /** Extraction returns t exactly for content that carries a string whose trimmed form is t. */
  lemma ExtractBodyMeaning(content: Json, t: string)
    ensures ExtractBody(content) == Ok(t) <==> t != "" && exists raw :: Carries(content, raw) && Trim(raw) == t
  {
    if ExtractBody(content) == Ok(t) {
      if content.JString? {
        assert Carries(content, content.text);
      } else if content.JObject? {
        assert Carries(content, content.fields["body"].text);
      } else {
        assert Carries(content, content.items[0].fields["body"].text);
      }
    }
    if t != "" && exists raw :: Carries(content, raw) && Trim(raw) == t {
      var raw :| Carries(content, raw) && Trim(raw) == t;
      assert ExtractBody(content) == Ok(Trim(raw));
    }
  }

  // ---------- fetchPublishTextTx ----------

  function VersionFor(rows: seq<Version>, post: int, account: int): Option<Version> {
    var own := FirstWhere(rows, (v: Version) => v.post == post && v.account == account);
    if own.Some? then own else FirstWhere(rows, (v: Version) => v.post == post && v.isOriginal)
  }

  /** No version at all is InvalidContent too (cmd/worker/main.go:148-149). */
  function PublishText(versions: map<int, Version>, next: nat, post: int, account: int): (r: Result<string, Error>)
    ensures r.Ok? ==> Trimmed(r.value) && r.value != ""
    ensures r.Err? ==> r.error == InvalidContent
  {
    var version := VersionFor(InIdOrder(versions, next), post, account);
    if version.None? then Err(InvalidContent) else ExtractBody(version.value.content)
  }
}
