/** The content collections `profile` and `activity`: their schemas as
    parsers from JSON data, with the records they produce. Whether a string is
    a URL and how a value is coerced to a date are inputs (`isUrl`,
    `coerceDate`, the latter giving a time value or None for an invalid date). */
module ContentSchema {
  import opened Wrappers

  datatype Json =
    | JNull
    | JBool(b: bool)
    | JNum(n: real)
    | JStr(s: string)
    | JArr(elems: seq<Json>)
    | JObj(fields: map<string, Json>)

  datatype Platform = X | GitHub | Website | LinkedIn
  datatype Social = Social(platform: Platform, linkLabel: string, url: string)
  datatype Tool = Tool(name: string, score: int)
  datatype ToolCategory = ToolCategory(name: string, items: seq<Tool>)
  datatype Profile = Profile(name: string, headline: string, awards: seq<string>,
                             socials: seq<Social>, toolCategories: seq<ToolCategory>)
  datatype Activity = Activity(dateLabel: string, sortDate: int, title: string,
                               period: Option<string>, description: Option<string>, tags: seq<string>)

  function PlatformName(p: Platform): string
  {
    match p
    case X => "x"
    case GitHub => "github"
    case Website => "website"
    case LinkedIn => "linkedin"
  }

  /** The `platform` enum: exactly the four names are accepted. */
  function ParsePlatform(j: Json): (r: Option<Platform>)
    ensures r.Some? <==> j.JStr? && j.s in {"x", "github", "website", "linkedin"}
    ensures r.Some? ==> j == JStr(PlatformName(r.value))
  {
    match j
    case JStr("x") => Some(X)
    case JStr("github") => Some(GitHub)
    case JStr("website") => Some(Website)
    case JStr("linkedin") => Some(LinkedIn)
    case _ => None
  }

  function ParseString(j: Json): (r: Option<string>)
    ensures r.Some? <==> j.JStr?
    ensures r.Some? ==> j == JStr(r.value)
  {
    if j.JStr? then Some(j.s) else None
  }

  /** `z.number().int().min(0).max(100)`. */
  predicate ValidScore(n: real)
  {
    n.Floor as real == n && 0.0 <= n <= 100.0
  }

  function ParseScore(j: Json): (r: Option<int>)
    ensures r.Some? <==> j.JNum? && ValidScore(j.n)
    ensures r.Some? ==> 0 <= r.value <= 100 && j == JNum(r.value as real)
  {
    if j.JNum? && ValidScore(j.n) then Some(j.n.Floor) else None
  }

  /** `z.array(elem)`: every element must parse. */
  function ParseStrings(js: seq<Json>): (r: Option<seq<string>>)
    ensures r.Some? <==> forall i :: 0 <= i < |js| ==> js[i].JStr?
    ensures r.Some? ==> |r.value| == |js| && forall i :: 0 <= i < |js| ==> js[i] == JStr(r.value[i])
  {
    if js == [] then Some([])
    else match (ParseStrings(js[..|js| - 1]), ParseString(js[|js| - 1]))
      case (Some(init), Some(last)) => Some(init + [last])
      case _ => None
  }

  /** A field of an object; absent when the value is not an object or lacks the key. */
  function Field(j: Json, key: string): Option<Json>
  {
    if j.JObj? && key in j.fields then Some(j.fields[key]) else None
  }

  function StringField(j: Json, key: string): Option<string>
  {
    var f := Field(j, key);
    if f.Some? then ParseString(f.value) else None
  }

  function StringsField(j: Json, key: string): Option<seq<string>>
  {
    var f := Field(j, key);
    if f.Some? && f.value.JArr? then ParseStrings(f.value.elems) else None
  }

  /** A `socials` element: accepted iff it is an object whose `platform` is
      one of the four names, whose `label` and `url` are strings, and whose
      url passes the check; the record holds exactly those values. */
  function ParseSocial(j: Json, isUrl: string -> bool): (r: Option<Social>)
    ensures r.Some? <==> (j.JObj? && "platform" in j.fields && "label" in j.fields && "url" in j.fields &&
      j.fields["platform"].JStr? && j.fields["platform"].s in {"x", "github", "website", "linkedin"} &&
      j.fields["label"].JStr? && j.fields["url"].JStr? && isUrl(j.fields["url"].s))
    ensures r.Some? ==> (j.fields["platform"] == JStr(PlatformName(r.value.platform)) &&
      j.fields["label"] == JStr(r.value.linkLabel) && j.fields["url"] == JStr(r.value.url))
    ensures r.Some? ==> isUrl(r.value.url)
  {
    var platform := Field(j, "platform");
    var linkLabel := StringField(j, "label");
    var url := StringField(j, "url");
    if platform.Some? && ParsePlatform(platform.value).Some? && linkLabel.Some? && url.Some? && isUrl(url.value)
    then Some(Social(ParsePlatform(platform.value).value, linkLabel.value, url.value))
    else None
  }

  function ParseSocials(js: seq<Json>, isUrl: string -> bool): (r: Option<seq<Social>>)
    ensures r.Some? <==> forall i :: 0 <= i < |js| ==> ParseSocial(js[i], isUrl).Some?
    ensures r.Some? ==> |r.value| == |js| && forall i :: 0 <= i < |js| ==> r.value[i] == ParseSocial(js[i], isUrl).value
  {
    if js == [] then Some([])
    else match (ParseSocials(js[..|js| - 1], isUrl), ParseSocial(js[|js| - 1], isUrl))
      case (Some(init), Some(last)) => Some(init + [last])
      case _ => None
  }

  /** A tool: accepted iff it is an object with a string `name` and an
      integer `score` in [0, 100]; the record holds exactly those values. */
  function ParseTool(j: Json): (r: Option<Tool>)
    ensures r.Some? <==> (j.JObj? && "name" in j.fields && "score" in j.fields &&
      j.fields["name"].JStr? && j.fields["score"].JNum? && ValidScore(j.fields["score"].n))
    ensures r.Some? ==> j.fields["name"] == JStr(r.value.name) && j.fields["score"] == JNum(r.value.score as real)
    ensures r.Some? ==> 0 <= r.value.score <= 100
  {
    var name := StringField(j, "name");
    var score := Field(j, "score");
    if name.Some? && score.Some? && ParseScore(score.value).Some?
    then Some(Tool(name.value, ParseScore(score.value).value))
    else None
  }

  function ParseTools(js: seq<Json>): (r: Option<seq<Tool>>)
    ensures r.Some? <==> forall i :: 0 <= i < |js| ==> ParseTool(js[i]).Some?
    ensures r.Some? ==> |r.value| == |js| && forall i :: 0 <= i < |js| ==> r.value[i] == ParseTool(js[i]).value
  {
    if js == [] then Some([])
    else match (ParseTools(js[..|js| - 1]), ParseTool(js[|js| - 1]))
      case (Some(init), Some(last)) => Some(init + [last])
      case _ => None
  }

  /** A tool category: accepted iff it is an object with a string `name` and
      an `items` array every element of which is a tool. */
  function ParseCategory(j: Json): (r: Option<ToolCategory>)
    ensures r.Some? <==> (j.JObj? && "name" in j.fields && "items" in j.fields &&
      j.fields["name"].JStr? && j.fields["items"].JArr? &&
      forall i :: 0 <= i < |j.fields["items"].elems| ==> ParseTool(j.fields["items"].elems[i]).Some?)
    ensures r.Some? ==> (j.fields["name"] == JStr(r.value.name) &&
      |r.value.items| == |j.fields["items"].elems| &&
      forall i :: 0 <= i < |r.value.items| ==> Some(r.value.items[i]) == ParseTool(j.fields["items"].elems[i]))
  {
    var name := StringField(j, "name");
    var items := Field(j, "items");
    if name.Some? && items.Some? && items.value.JArr? && ParseTools(items.value.elems).Some?
    then Some(ToolCategory(name.value, ParseTools(items.value.elems).value))
    else None
  }

  function ParseCategories(js: seq<Json>): (r: Option<seq<ToolCategory>>)
    ensures r.Some? <==> forall i :: 0 <= i < |js| ==> ParseCategory(js[i]).Some?
    ensures r.Some? ==> |r.value| == |js| && forall i :: 0 <= i < |js| ==> r.value[i] == ParseCategory(js[i]).value
  {
    if js == [] then Some([])
    else match (ParseCategories(js[..|js| - 1]), ParseCategory(js[|js| - 1]))
      case (Some(init), Some(last)) => Some(init + [last])
      case _ => None
  }

  /** The `profile` schema; unknown keys are ignored, as `z.object` strips
      them. A profile is accepted iff it is an object with string `name` and
      `headline`, a string array `awards`, and `socials` and `toolCategories`
      arrays whose every element is accepted; the record holds those values. */
  function ParseProfile(j: Json, isUrl: string -> bool): (r: Option<Profile>)
    ensures r.Some? <==> (j.JObj? &&
      "name" in j.fields && j.fields["name"].JStr? &&
      "headline" in j.fields && j.fields["headline"].JStr? &&
      "awards" in j.fields && j.fields["awards"].JArr? &&
      (forall i :: 0 <= i < |j.fields["awards"].elems| ==> j.fields["awards"].elems[i].JStr?) &&
      "socials" in j.fields && j.fields["socials"].JArr? &&
      (forall i :: 0 <= i < |j.fields["socials"].elems| ==> ParseSocial(j.fields["socials"].elems[i], isUrl).Some?) &&
      "toolCategories" in j.fields && j.fields["toolCategories"].JArr? &&
      (forall i :: 0 <= i < |j.fields["toolCategories"].elems| ==> ParseCategory(j.fields["toolCategories"].elems[i]).Some?))
    ensures r.Some? ==>
      j.fields["name"] == JStr(r.value.name) && j.fields["headline"] == JStr(r.value.headline) &&
      j.fields["awards"] == JArr(Strings(r.value.awards)) &&
      |r.value.socials| == |j.fields["socials"].elems| &&
      (forall i :: 0 <= i < |r.value.socials| ==> Some(r.value.socials[i]) == ParseSocial(j.fields["socials"].elems[i], isUrl)) &&
      |r.value.toolCategories| == |j.fields["toolCategories"].elems| &&
      (forall i :: 0 <= i < |r.value.toolCategories| ==> Some(r.value.toolCategories[i]) == ParseCategory(j.fields["toolCategories"].elems[i]))
  {
    var name := StringField(j, "name");
    var headline := StringField(j, "headline");
    var awards := StringsField(j, "awards");
    var socials := Field(j, "socials");
    var categories := Field(j, "toolCategories");
    if name.Some? && headline.Some? && awards.Some?
       && socials.Some? && socials.value.JArr? && ParseSocials(socials.value.elems, isUrl).Some?
       && categories.Some? && categories.value.JArr? && ParseCategories(categories.value.elems).Some?
    then Some(Profile(name.value, headline.value, awards.value,
                      ParseSocials(socials.value.elems, isUrl).value,
                      ParseCategories(categories.value.elems).value))
    else None
  }

  /** What a parsed profile satisfies. */
  predicate ValidProfile(p: Profile, isUrl: string -> bool)
  {
    (forall i :: 0 <= i < |p.socials| ==> isUrl(p.socials[i].url)) &&
    (forall i, k :: 0 <= i < |p.toolCategories| && 0 <= k < |p.toolCategories[i].items| ==>
       0 <= p.toolCategories[i].items[k].score <= 100)
  }

  /** Every accepted profile has valid urls and scores in [0, 100]. */
  lemma ParsedProfileValid(j: Json, isUrl: string -> bool)
    requires ParseProfile(j, isUrl).Some?
    ensures ValidProfile(ParseProfile(j, isUrl).value, isUrl)
  {
    var p := ParseProfile(j, isUrl).value;
    forall i, k | 0 <= i < |p.toolCategories| && 0 <= k < |p.toolCategories[i].items|
      ensures 0 <= p.toolCategories[i].items[k].score <= 100
    {
      var cats := j.fields["toolCategories"].elems;
      assert p.toolCategories[i] == ParseCategory(cats[i]).value;
      var items := cats[i].fields["items"].elems;
      assert p.toolCategories[i].items[k] == ParseTool(items[k]).value;
    }
  }

  /** A profile without a required field is rejected. */
  lemma ProfileNeedsFields(j: Json, isUrl: string -> bool)
    ensures StringField(j, "name").None? ==> ParseProfile(j, isUrl).None?
    ensures StringField(j, "headline").None? ==> ParseProfile(j, isUrl).None?
    ensures StringsField(j, "awards").None? ==> ParseProfile(j, isUrl).None?
  {
  }

  function Strings(s: seq<string>): (r: seq<Json>)
    ensures |r| == |s|
  {
    seq(|s|, i requires 0 <= i < |s| => JStr(s[i]))
  }

  function EncodeSocial(s: Social): Json
  {
    JObj(map["platform" := JStr(PlatformName(s.platform)), "label" := JStr(s.linkLabel), "url" := JStr(s.url)])
  }

  function EncodeTool(t: Tool): Json
  {
    JObj(map["name" := JStr(t.name), "score" := JNum(t.score as real)])
  }

  function EncodeCategory(c: ToolCategory): Json
  {
    JObj(map["name" := JStr(c.name),
             "items" := JArr(seq(|c.items|, i requires 0 <= i < |c.items| => EncodeTool(c.items[i])))])
  }

  function EncodeSocials(ss: seq<Social>): (r: seq<Json>)
    ensures |r| == |ss|
  {
    seq(|ss|, i requires 0 <= i < |ss| => EncodeSocial(ss[i]))
  }

  function EncodeCategories(cs: seq<ToolCategory>): (r: seq<Json>)
    ensures |r| == |cs|
  {
    seq(|cs|, i requires 0 <= i < |cs| => EncodeCategory(cs[i]))
  }

  function EncodeProfile(p: Profile): Json
  {
    JObj(map["name" := JStr(p.name), "headline" := JStr(p.headline), "awards" := JArr(Strings(p.awards)),
             "socials" := JArr(EncodeSocials(p.socials)),
             "toolCategories" := JArr(EncodeCategories(p.toolCategories))])
  }

  lemma {:induction false} StringsRoundTrip(s: seq<string>)
    ensures ParseStrings(Strings(s)) == Some(s)
    decreases |s|
  {
    if s != [] {
      assert Strings(s)[..|s| - 1] == Strings(s[..|s| - 1]);
      StringsRoundTrip(s[..|s| - 1]);
      assert s == s[..|s| - 1] + [s[|s| - 1]];
    }
  }

  lemma CategoryRoundTrip(c: ToolCategory)
    requires forall k :: 0 <= k < |c.items| ==> 0 <= c.items[k].score <= 100
    ensures ParseCategory(EncodeCategory(c)) == Some(c)
  {
    var elems := seq(|c.items|, i requires 0 <= i < |c.items| => EncodeTool(c.items[i]));
    forall k | 0 <= k < |c.items|
      ensures ParseTool(elems[k]) == Some(c.items[k])
    {
      assert ParseScore(JNum(c.items[k].score as real)) == Some(c.items[k].score);
    }
    assert ParseTools(elems).value == c.items;
  }

  lemma SocialRoundTrip(s: Social, isUrl: string -> bool)
    requires isUrl(s.url)
    ensures ParseSocial(EncodeSocial(s), isUrl) == Some(s)
  {
    var j := EncodeSocial(s);
    assert Field(j, "platform") == Some(JStr(PlatformName(s.platform)));
    assert StringField(j, "label") == Some(s.linkLabel);
    assert StringField(j, "url") == Some(s.url);
  }

  lemma SocialsRoundTrip(ss: seq<Social>, isUrl: string -> bool)
    requires forall i :: 0 <= i < |ss| ==> isUrl(ss[i].url)
    ensures ParseSocials(EncodeSocials(ss), isUrl) == Some(ss)
  {
    var elems := EncodeSocials(ss);
    forall i | 0 <= i < |ss|
      ensures ParseSocial(elems[i], isUrl) == Some(ss[i])
    {
      assert elems[i] == EncodeSocial(ss[i]);
      SocialRoundTrip(ss[i], isUrl);
    }
    assert ParseSocials(elems, isUrl).value == ss;
  }

  lemma CategoriesRoundTrip(cs: seq<ToolCategory>)
    requires forall i, k :: 0 <= i < |cs| && 0 <= k < |cs[i].items| ==> 0 <= cs[i].items[k].score <= 100
    ensures ParseCategories(EncodeCategories(cs)) == Some(cs)
  {
    var elems := EncodeCategories(cs);
    forall i | 0 <= i < |cs|
      ensures ParseCategory(elems[i]) == Some(cs[i])
    {
      CategoryRoundTrip(cs[i]);
    }
    assert ParseCategories(elems).value == cs;
  }

  /** The fields of an encoded profile, each as the parser reads it. */
  lemma EncodedProfileFields(p: Profile)
    ensures StringField(EncodeProfile(p), "name") == Some(p.name)
    ensures StringField(EncodeProfile(p), "headline") == Some(p.headline)
    ensures StringsField(EncodeProfile(p), "awards") == ParseStrings(Strings(p.awards))
    ensures Field(EncodeProfile(p), "socials") == Some(JArr(EncodeSocials(p.socials)))
    ensures Field(EncodeProfile(p), "toolCategories") == Some(JArr(EncodeCategories(p.toolCategories)))
  {
  }

  /** Encoding a valid profile and parsing it back gives the same profile. */
  lemma ProfileRoundTrip(p: Profile, isUrl: string -> bool)
    requires ValidProfile(p, isUrl)
    ensures ParseProfile(EncodeProfile(p), isUrl) == Some(p)
  {
    StringsRoundTrip(p.awards);
    SocialsRoundTrip(p.socials, isUrl);
    CategoriesRoundTrip(p.toolCategories);
    EncodedProfileFields(p);
  }

  /** `z.string().optional()`: absent is fine, anything but a string is not. */
  function OptionalString(j: Json, key: string): Option<Option<string>>
  {
    var f := Field(j, key);
    if f.None? then Some(None)
    else if f.value.JStr? then Some(Some(f.value.s))
    else None
  }

  /** The `activity` schema; `tags` defaults to the empty list when absent. */
  function ParseActivity(j: Json, coerceDate: Json -> Option<int>): Option<Activity>
  {
    var dateLabel := StringField(j, "dateLabel");
    var sortDate := Field(j, "sortDate");
    var title := StringField(j, "title");
    var period := OptionalString(j, "period");
    var description := OptionalString(j, "description");
    var tags := if Field(j, "tags").None? then Some([]) else StringsField(j, "tags");
    if dateLabel.Some? && sortDate.Some? && coerceDate(sortDate.value).Some? && title.Some?
       && period.Some? && description.Some? && tags.Some?
    then Some(Activity(dateLabel.value, coerceDate(sortDate.value).value, title.value,
                       period.value, description.value, tags.value))
    else None
  }

  /** Which activity entries are accepted: the three required fields, a date
      that coerces, optional strings, and tags that are absent or strings. */
  lemma ActivityAccepted(j: Json, coerceDate: Json -> Option<int>)
    ensures ParseActivity(j, coerceDate).Some? <==>
      j.JObj? && StringField(j, "dateLabel").Some? && StringField(j, "title").Some? &&
      "sortDate" in j.fields && coerceDate(j.fields["sortDate"]).Some? &&
      ("period" !in j.fields || j.fields["period"].JStr?) &&
      ("description" !in j.fields || j.fields["description"].JStr?) &&
      ("tags" !in j.fields || (j.fields["tags"].JArr? && forall i :: 0 <= i < |j.fields["tags"].elems| ==> j.fields["tags"].elems[i].JStr?))
    ensures ParseActivity(j, coerceDate).Some? && "tags" !in j.fields ==> ParseActivity(j, coerceDate).value.tags == []
    ensures ParseActivity(j, coerceDate).Some? && "period" !in j.fields ==> ParseActivity(j, coerceDate).value.period == None
  {
  }

  function EncodeActivity(a: Activity, dateJson: int -> Json): Json
  {
    var base := map["dateLabel" := JStr(a.dateLabel), "sortDate" := dateJson(a.sortDate),
                    "title" := JStr(a.title), "tags" := JArr(Strings(a.tags))];
    var withPeriod := if a.period.Some? then base["period" := JStr(a.period.value)] else base;
    JObj(if a.description.Some? then withPeriod["description" := JStr(a.description.value)] else withPeriod)
  }

  /** With a date encoding the coercion reads back, every activity survives
      encoding and parsing. */
  lemma ActivityRoundTrip(a: Activity, dateJson: int -> Json, coerceDate: Json -> Option<int>)
    requires coerceDate(dateJson(a.sortDate)) == Some(a.sortDate)
    ensures ParseActivity(EncodeActivity(a, dateJson), coerceDate) == Some(a)
  {
    StringsRoundTrip(a.tags);
  }
}
