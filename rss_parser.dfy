/**
 * The feed normaliser: turns the channel and items of an RSS 2.0 document into
 * `Episode` records. The DOM is abstracted: every tag the parser looks up is a field
 * holding the element that lookup finds (if any), and the three selector queries of an
 * item are the elements they range over, in document order.
 */
module RssParser {
  import opened Wrappers
  import opened JsRuntime
  import opened Seqs
  import opened Types

  /** An element found by a lookup: its text content and its attributes. */
  datatype XmlElement = XmlElement(textContent: string, attributes: map<string, string>)

  /**
   * An `<item>`. The optional fields are what a lookup of `title`, `description`,
   * `itunes:summary`, `pubDate`, `itunes:duration`, `itunes:episode` and `itunes:season`
   * finds; `enclosures` are the `<enclosure>` elements, `mediaContents` the
   * `<media:content>`/`<content>` elements and `images` the `<itunes:image>`/`<image>`
   * elements, each in document order.
   */
  datatype Item = Item(
    title: Option<XmlElement>,
    description: Option<XmlElement>,
    itunesSummary: Option<XmlElement>,
    pubDate: Option<XmlElement>,
    itunesDuration: Option<XmlElement>,
    itunesEpisode: Option<XmlElement>,
    itunesSeason: Option<XmlElement>,
    enclosures: seq<XmlElement>,
    mediaContents: seq<XmlElement>,
    images: seq<XmlElement>)

  /**
   * The `<channel>` element: the element each of its lookups returns, and its items in
   * document order. The lookups search all descendants, so a channel without a `<title>`
   * of its own gets the first item's `<title>` here; the same holds for the description
   * and the itunes:image.
   */
  datatype Channel = Channel(
    title: Option<XmlElement>,
    description: Option<XmlElement>,
    itunesImage: Option<XmlElement>,
    image: Option<XmlElement>,
    items: seq<Item>)

  /** What the XML parser produced: whether it reported an error, and the channel found. */
  datatype XmlDocument = XmlDocument(hasParserError: bool, channel: Option<Channel>)

  /** The parsed feed. */
  datatype RSSChannel = RSSChannel(title: string, description: string, image: string, episodes: seq<Episode>)

  /**
   * What the parser borrows from its host: markup stripping (`cleanText`), the host's date
   * parser (`None` for an invalid date) and the clock reading used as the fallback date.
   */
  datatype Env = Env(cleanText: string -> string, dateValue: string -> Option<int>, now: int)

  /** The one message every parse failure is rethrown with. */
  const ParseFailure: string := "Failed to parse RSS feed"
  const UnknownPodcast: string := "Unknown Podcast"

  /** JavaScript `a || b` on strings: `b` when `a` is empty. */
  function Or(a: string, b: string): string {
    if a != "" then a else b
  }

  /** `element.getAttribute(name) || ''`. */
  function Attribute(e: XmlElement, name: string): string {
    if name in e.attributes then e.attributes[name] else ""
  }

  /**
   * getElementText: the trimmed text of the element found, else its `href` attribute,
   * else the empty string.
   */
  function GetElementText(e: Option<XmlElement>): (r: string)
    ensures e.None? ==> r == ""
    ensures e.Some? && Trim(e.value.textContent) != "" ==> r == Trim(e.value.textContent)
    ensures e.Some? && Trim(e.value.textContent) == "" ==> r == Attribute(e.value, "href")
  {
    match e
    case None => ""
    case Some(el) => Or(Trim(el.textContent), Attribute(el, "href"))
  }

  // ---------------------------------------------------------------------------
  // Durations

  /** `durationString.split(':').map(part => parseInt(part, 10))`. */
  function DurationParts(s: string): (parts: seq<Number>)
    ensures |parts| == |Split(s, ':')|
    ensures forall i :: 0 <= i < |parts| ==> parts[i] == ParseInt(Split(s, ':')[i])
  {
    var pieces := Split(s, ':');
    seq(|pieces|, i requires 0 <= i < |pieces| => ParseInt(pieces[i]))
  }

  /**
   * parseDuration: `SS`, `MM:SS` or `HH:MM:SS` to seconds; the empty string and four or
   * more parts give 0; a part parseInt cannot read makes the whole sum NaN.
   */
  function ParseDuration(s: string): Number {
    if s == "" then Int(0) else Seconds(DurationParts(s))
  }

  /** The total of the parsed parts, by how many there are. */
  function Seconds(parts: seq<Number>): Number {
    if |parts| == 3 then Plus(Plus(Times(parts[0], 3600), Times(parts[1], 60)), parts[2])
    else if |parts| == 2 then Plus(Times(parts[0], 60), parts[1])
    else if |parts| == 1 then parts[0]
    else Int(0)
  }

  /** Splitting a piece without separators off the front of a string. */
  lemma {:induction false} SplitFront(a: string, b: string, sep: char)
    requires sep !in a
    ensures Split(a + [sep] + b, sep) == [a] + Split(b, sep)
  {
    if a == [] {
      assert a + [sep] + b == [sep] + b;
      assert ([sep] + b)[1..] == b;
    } else {
      assert (a + [sep] + b)[1..] == a[1..] + [sep] + b;
      SplitFront(a[1..], b, sep);
      assert [a[0]] + a[1..] == a;
    }
  }

  /** A string without separators splits into itself. */
  lemma {:induction false} SplitNone(a: string, sep: char)
    requires sep !in a
    ensures Split(a, sep) == [a]
  {
    if a != [] {
      SplitNone(a[1..], sep);
      assert [a[0]] + a[1..] == a;
    }
  }

  predicate IsDigits(s: string) {
    s != [] && forall i :: 0 <= i < |s| ==> IsDecimalDigit(s[i])
  }

  lemma ParseIntDigits(s: string)
    requires IsDigits(s)
    ensures ParseInt(s) == Int(ValueIn(s, 10))
  {
    assert !IsWhiteSpace(s[0]);
    assert TrimStart(s) == s;
    DigitPrefixStops(s, []);
    assert s + [] == s;
  }

  lemma SplitThree(h: string, m: string, sec: string)
    requires ':' !in h && ':' !in m && ':' !in sec
    ensures Split(h + ":" + m + ":" + sec, ':') == [h, m, sec]
  {
    SplitNone(sec, ':');
    SplitFront(m, sec, ':');
    assert h + ":" + m + ":" + sec == h + [':'] + (m + [':'] + sec);
    SplitFront(h, m + [':'] + sec, ':');
  }

  lemma SplitTwo(m: string, sec: string)
    requires ':' !in m && ':' !in sec
    ensures Split(m + ":" + sec, ':') == [m, sec]
  {
    SplitNone(sec, ':');
    SplitFront(m, sec, ':');
  }

  /** A string starting with a character that is neither whitespace, sign nor digit is NaN. */
  lemma ParseIntNonDigit(s: string)
    requires s != [] && !IsWhiteSpace(s[0]) && s[0] != '-' && s[0] != '+' && !IsDecimalDigit(s[0])
    ensures ParseInt(s) == NaN
  {
    assert TrimStart(s) == s;
  }

  /** `HH:MM:SS`: fields without ':' that parseInt reads as whole numbers give
      hours * 3600 + minutes * 60 + seconds. */
  lemma ParseDurationHms(h: string, m: string, sec: string, vh: int, vm: int, vs: int)
    requires ':' !in h && ':' !in m && ':' !in sec
    requires ParseInt(h) == Int(vh) && ParseInt(m) == Int(vm) && ParseInt(sec) == Int(vs)
    ensures ParseDuration(h + ":" + m + ":" + sec) == Int(vh * 3600 + vm * 60 + vs)
  {
    SplitThree(h, m, sec);
    HmsOf(h + ":" + m + ":" + sec, h, m, sec, vh, vm, vs);
  }

  /** A string that splits at ':' into three fields parseInt reads as whole numbers. */
  lemma HmsOf(s: string, h: string, m: string, sec: string, vh: int, vm: int, vs: int)
    requires Split(s, ':') == [h, m, sec]
    requires ParseInt(h) == Int(vh) && ParseInt(m) == Int(vm) && ParseInt(sec) == Int(vs)
    ensures ParseDuration(s) == Int(vh * 3600 + vm * 60 + vs)
  {
    SplitOfEmpty(':');
    var parts := DurationParts(s);
    assert parts[0] == Int(vh) && parts[1] == Int(vm) && parts[2] == Int(vs);
    SecondsOfThree(parts, vh, vm, vs);
  }

  /** `MM:SS`: fields without ':' that parseInt reads as whole numbers give
      minutes * 60 + seconds. */
  lemma ParseDurationMs(m: string, sec: string, vm: int, vs: int)
    requires ':' !in m && ':' !in sec
    requires ParseInt(m) == Int(vm) && ParseInt(sec) == Int(vs)
    ensures ParseDuration(m + ":" + sec) == Int(vm * 60 + vs)
  {
    SplitTwo(m, sec);
    MsOf(m + ":" + sec, m, sec, vm, vs);
  }

  /** A string that splits at ':' into two fields parseInt reads as whole numbers. */
  lemma MsOf(s: string, m: string, sec: string, vm: int, vs: int)
    requires Split(s, ':') == [m, sec]
    requires ParseInt(m) == Int(vm) && ParseInt(sec) == Int(vs)
    ensures ParseDuration(s) == Int(vm * 60 + vs)
  {
    SplitOfEmpty(':');
    var parts := DurationParts(s);
    assert parts[0] == Int(vm) && parts[1] == Int(vs);
    SecondsOfTwo(parts, vm, vs);
  }

  lemma SplitOfEmpty(sep: char)
    ensures Split("", sep) == [""]
  {
  }

  lemma SecondsOfThree(parts: seq<Number>, a: int, b: int, c: int)
    requires |parts| == 3 && parts[0] == Int(a) && parts[1] == Int(b) && parts[2] == Int(c)
    ensures Seconds(parts) == Int(a * 3600 + b * 60 + c)
  {
  }

  lemma NoColonInDigits(s: string)
    requires IsDigits(s)
    ensures ':' !in s
  {
  }

  lemma SecondsOfTwo(parts: seq<Number>, a: int, b: int)
    requires |parts| == 2 && parts[0] == Int(a) && parts[1] == Int(b)
    ensures Seconds(parts) == Int(a * 60 + b)
  {
  }

  /** A string without a colon is a single part: the duration is whatever parseInt reads. */
  lemma ParseDurationSeconds(s: string)
    requires s != "" && ':' !in s
    ensures ParseDuration(s) == ParseInt(s)
  {
    SplitNone(s, ':');
    var parts := DurationParts(s);
    assert parts[0] == ParseInt(s);
  }

  /** Three or more colons (four or more parts) give 0 whatever the parts hold. */
  lemma ParseDurationTooManyParts(s: string)
    requires multiset(s)[':'] >= 3
    ensures ParseDuration(s) == Int(0)
  {
    SplitCount(s, ':');
  }

  /** With one to three parts, a part parseInt cannot read makes the duration NaN. */
  lemma ParseDurationNaN(s: string, k: nat)
    requires s != "" && |Split(s, ':')| <= 3
    requires k < |Split(s, ':')| && ParseInt(Split(s, ':')[k]).NaN?
    ensures ParseDuration(s).NaN?
  {
    var parts := DurationParts(s);
    assert parts[k].NaN?;
    assert ParseDuration(s) == Seconds(parts);
    SecondsNaN(parts, k);
  }

  lemma SecondsNaN(parts: seq<Number>, k: nat)
    requires k < |parts| <= 3 && parts[k].NaN?
    ensures Seconds(parts).NaN?
  {
  }

  lemma ValueInTwoDigits(s: string)
    requires |s| == 2 && IsDigits(s)
    ensures ValueIn(s, 10) == DigitValue(s[0]) * 10 + DigitValue(s[1])
  {
    assert s[..|s| - 1] == s[..1];
    assert s[..1][..0] == [];
    assert ValueIn(s[..1], 10) == ValueIn([], 10) * 10 + DigitValue(s[0]);
  }

  /** The worked example "01:02:03" is 3723 seconds. */
  lemma ParseDurationExampleHms()
    ensures ParseDuration("01:02:03") == Int(3723)
  {
    HmsExampleFields();
    HmsLiteral();
  }

  lemma ValueOfTwoDigits(s: string, v: nat)
    requires |s| == 2 && IsDigits(s) && DigitValue(s[0]) * 10 + DigitValue(s[1]) == v
    ensures ValueIn(s, 10) == v
  {
    ValueInTwoDigits(s);
  }

  /** A two-digit field is read by parseInt as its value and holds no ':'. */
  lemma TwoDigitField(s: string, v: nat)
    requires |s| == 2 && IsDigits(s) && DigitValue(s[0]) * 10 + DigitValue(s[1]) == v
    ensures ParseInt(s) == Int(v) && ':' !in s
  {
    ValueOfTwoDigits(s, v);
    ParseIntDigits(s);
    NoColonInDigits(s);
  }

  lemma HmsExampleFields()
    ensures ParseDuration("01" + ":" + "02" + ":" + "03") == Int(3723)
  {
    TwoDigitField("01", 1);
    TwoDigitField("02", 2);
    TwoDigitField("03", 3);
    ParseDurationHms("01", "02", "03", 1, 2, 3);
  }

  lemma HmsLiteral()
    ensures "01" + ":" + "02" + ":" + "03" == "01:02:03"
  {
  }

  lemma MsExampleFields()
    ensures ParseDuration("02" + ":" + "03") == Int(123)
  {
    TwoDigitField("02", 2);
    TwoDigitField("03", 3);
    ParseDurationMs("02", "03", 2, 3);
  }

  lemma MsLiteral()
    ensures "02" + ":" + "03" == "02:03"
  {
  }

  /** The worked example "02:03" is 123 seconds. */
  lemma ParseDurationExampleMs()
    ensures ParseDuration("02:03") == Int(123)
  {
    MsExampleFields();
    MsLiteral();
  }

  /** The worked example "45" is 45 seconds. */
  lemma ParseDurationExampleSeconds()
    ensures ParseDuration("45") == Int(45)
  {
    TwoDigitField("45", 45);
    ParseDurationSeconds("45");
  }

  /** A unit suffix is ignored as parseInt ignores it: "45s" is 45 seconds. */
  lemma ParseDurationExampleSuffix()
    ensures ParseDuration("45s") == Int(45)
  {
    DecimalFortyFive();
    ParseIntLeadingDecimal(45, "s");
    ParseDurationSeconds("45s");
  }

  lemma DecimalFortyFive()
    ensures Decimal(45) + "s" == "45s"
  {
  }

  /** A duration without ':' that does not start like a number is NaN. */
  lemma ParseDurationNotANumber(s: string)
    requires s != [] && ':' !in s
    requires !IsWhiteSpace(s[0]) && s[0] != '-' && s[0] != '+' && !IsDecimalDigit(s[0])
    ensures ParseDuration(s) == NaN
  {
    ParseDurationSeconds(s);
    ParseIntNonDigit(s);
  }

  /** A non-numeric duration such as "not-a-time" is NaN. */
  lemma ParseDurationExampleNotATime()
    ensures ParseDuration("not-a-time") == NaN
  {
    ParseDurationNotANumber("not-a-time");
  }

  // ---------------------------------------------------------------------------
  // Episode identity

  /** One step of the rolling hash: `hash = ((hash << 5) - hash) + char; hash = hash & hash`. */
  function HashStep(hash: int, unit: int): int {
    ToInt32(ToInt32(hash * 32) - hash + unit)
  }

  /** The rolling hash of a sequence of UTF-16 code units, folded from the left. */
  function Hash(units: seq<int>): (h: int)
    ensures -TwoTo31 <= h < TwoTo31
  {
    if units == [] then 0 else HashStep(Hash(units[..|units| - 1]), units[|units| - 1])
  }

  /** The hash of one more code unit is one more step. */
  lemma HashPrefix(units: seq<int>, i: nat)
    requires i < |units|
    ensures Hash(units[..i + 1]) == HashStep(Hash(units[..i]), units[i])
  {
    assert units[..i + 1][..i] == units[..i];
  }

  /** Each step is the signed 32-bit wrap of `hash * 31 + code`. */
  lemma HashStepIsWrappedRecurrence(hash: int, unit: int)
    requires -TwoTo31 <= hash < TwoTo31
    ensures HashStep(hash, unit) == ToInt32(hash * 31 + unit)
  {
    var x := hash * 32;
    assert (x - ToInt32(x)) % TwoTo32 == 0;
    assert (ToInt32(x) - hash + unit) - (hash * 31 + unit) == ToInt32(x) - x;
    var q := (x - ToInt32(x)) / TwoTo32;
    assert x - ToInt32(x) == q * TwoTo32;
    assert (ToInt32(x) - hash + unit) - (hash * 31 + unit) == -q * TwoTo32;
    ModShift(0, -q);
    ToInt32Congruent(ToInt32(x) - hash + unit, hash * 31 + unit);
  }

  /** The string the id is hashed from: the raw title, a dash and the raw pubDate text. */
  function IdSource(title: string, pubDate: string): string {
    title + "-" + pubDate
  }

  /** `Math.abs(x)`. */
  function Abs(x: int): nat {
    if x < 0 then -x else x
  }

  /** generateEpisodeId, as a value: base 36 of the absolute hash. */
  function EpisodeId(title: string, pubDate: string): (id: string)
    ensures id != [] && forall i :: 0 <= i < |id| ==> IsLowerAlnum(id[i])
  {
    ToRadixString(Abs(Hash(Utf16(IdSource(title, pubDate)))), 36)
  }

  /** The id reads back, in base 36, as a number no larger than 2^31. */
  lemma EpisodeIdBound(title: string, pubDate: string)
    ensures ValueIn(EpisodeId(title, pubDate), 36) <= TwoTo31
  {
    RadixRoundTrip(Abs(Hash(Utf16(IdSource(title, pubDate)))), 36);
  }

  /** generateEpisodeId: the hash loop over the code units of `title-pubDate`. */
  method GenerateEpisodeId(title: string, pubDate: string) returns (id: string)
    ensures id == EpisodeId(title, pubDate)
  {
    var combined := title + "-" + pubDate;
    var units := Utf16(combined);
    var hash := 0;
    var i := 0;
    while i < |units|
      invariant 0 <= i <= |units|
      invariant hash == Hash(units[..i])
    {
      HashPrefix(units, i);
      hash := ToInt32(ToInt32(hash * 32) - hash + units[i]);
      i := i + 1;
    }
    assert units[..i] == units;
    id := ToRadixString(Abs(hash), 36);
  }

  // ---------------------------------------------------------------------------
  // Episodes

  /** `[type*="audio"]`: a `type` attribute containing "audio". */
  predicate HasAudioType(e: XmlElement) {
    "type" in e.attributes && Includes(e.attributes["type"], "audio")
  }

  /**
   * The audio URL: the first audio-typed enclosure's `url` if there is such an enclosure,
   * else the first audio-typed media:content's `url`, else the empty string.
   */
  function AudioUrl(item: Item): (url: string)
    ensures url != "" ==>
      (exists k :: 0 <= k < |item.enclosures| && HasAudioType(item.enclosures[k]) &&
                   url == Attribute(item.enclosures[k], "url")) ||
      (exists k :: 0 <= k < |item.mediaContents| && HasAudioType(item.mediaContents[k]) &&
                   url == Attribute(item.mediaContents[k], "url"))
  {
    match Find(item.enclosures, HasAudioType)
    case Some(enclosure) => Attribute(enclosure, "url")
    case None =>
      match Find(item.mediaContents, HasAudioType)
      case Some(content) => Attribute(content, "url")
      case None => ""
  }

  /** The first image element's `href`, else its `url`, else the empty string. */
  function ItemImage(item: Item): (r: string)
    ensures item.images == [] ==> r == ""
    ensures item.images != [] && Attribute(item.images[0], "href") != "" ==> r == Attribute(item.images[0], "href")
    ensures item.images != [] && Attribute(item.images[0], "href") == "" ==> r == Attribute(item.images[0], "url")
  {
    if item.images == [] then "" else Or(Attribute(item.images[0], "href"), Attribute(item.images[0], "url"))
  }

  /** `parseInt(text || '0', 10) || undefined`: 0 and NaN become absent. */
  function OptionalNumber(text: string): (r: Option<int>)
    ensures r.Some? <==> ParseInt(Or(text, "0")).Int? && ParseInt(Or(text, "0")).value != 0
    ensures r.Some? ==> r.value == ParseInt(Or(text, "0")).value
  {
    var n := ParseInt(Or(text, "0"));
    if n.NaN? || n.value == 0 then None else Some(n.value)
  }

  /** parseDate: the host's reading of the text, or the clock when it is empty or invalid. */
  function ParseDate(text: string, env: Env): (d: int)
    ensures d == env.now || (text != "" && env.dateValue(text) == Some(d))
    ensures text != "" && env.dateValue(text).Some? ==> d == env.dateValue(text).value
    ensures text == "" || env.dateValue(text).None? ==> d == env.now
  {
    if text == "" then env.now
    else match env.dateValue(text)
      case None => env.now
      case Some(v) => v
  }

  /** The item's title before cleaning: the title text or `Episode <index + 1>`. */
  function RawTitle(item: Item, index: nat): string {
    Or(GetElementText(item.title), "Episode " + Decimal(index + 1))
  }

  /** The item's description before cleaning: description, else itunes:summary, else empty. */
  function RawDescription(item: Item): string {
    Or(GetElementText(item.description), Or(GetElementText(item.itunesSummary), ""))
  }

  /** parseEpisode: one candidate episode from the item at `index`. */
  function ParseEpisode(item: Item, index: nat, backupImage: string, env: Env): (e: Episode)
    ensures e.id != ""
    ensures GetElementText(item.itunesDuration) == "" ==> e.duration == Int(0)
    ensures e.publishDate == env.now || env.dateValue(GetElementText(item.pubDate)) == Some(e.publishDate)
    ensures e.thumbnail == "" ==> backupImage == ""
    ensures e.episodeNumber != Some(0) && e.season != Some(0)
  {
    var title := RawTitle(item, index);
    var pubDate := GetElementText(item.pubDate);
    var itunesDuration := GetElementText(item.itunesDuration);
    Episode(
      id := EpisodeId(title, pubDate),
      title := env.cleanText(title),
      description := env.cleanText(RawDescription(item)),
      audioUrl := AudioUrl(item),
      duration := if itunesDuration != "" then ParseDuration(itunesDuration) else Int(0),
      publishDate := ParseDate(pubDate, env),
      thumbnail := Or(ItemImage(item), backupImage),
      episodeNumber := OptionalNumber(GetElementText(item.itunesEpisode)),
      season := OptionalNumber(GetElementText(item.itunesSeason)))
  }

  /** The channel image: itunes:image, else image, else empty. */
  function ChannelImage(channel: Channel): (image: string)
    ensures GetElementText(channel.itunesImage) != "" ==> image == GetElementText(channel.itunesImage)
    ensures GetElementText(channel.itunesImage) == "" ==> image == GetElementText(channel.image)
  {
    Or(GetElementText(channel.itunesImage), Or(GetElementText(channel.image), ""))
  }

  /** `items.map((item, index) => parseEpisode(item, index, image))`. */
  function Candidates(items: seq<Item>, image: string, env: Env): (c: seq<Episode>)
    ensures |c| == |items|
  {
    MapWithIndex(items, ParseAt(image, env))
  }

  /** `(item, index) => parseEpisode(item, index, image)`, the callback of `items.map`. */
  function ParseAt(image: string, env: Env): (Item, nat) -> Episode {
    (item: Item, i: nat) => ParseEpisode(item, i, image, env)
  }

  predicate HasAudio(e: Episode) {
    e.audioUrl != ""
  }

  /** parseRSSFeed on an already-parsed document. */
  function ParseRSSFeed(doc: XmlDocument, env: Env): (r: Result<RSSChannel>)
    ensures r.Failure? <==> doc.hasParserError || doc.channel.None?
    ensures r.Failure? ==> r.error == ParseFailure
    ensures r.Success? ==> |r.value.episodes| <= |doc.channel.value.items|
    ensures r.Success? ==> forall k :: 0 <= k < |r.value.episodes| ==> r.value.episodes[k].audioUrl != ""
    ensures r.Success? && GetElementText(doc.channel.value.title) != "" ==>
              r.value.title == GetElementText(doc.channel.value.title)
    ensures r.Success? ==> r.value.description == GetElementText(doc.channel.value.description)
    ensures r.Success? ==> r.value.image == ChannelImage(doc.channel.value)
    ensures r.Success? ==> r.value.episodes == FeedEpisodes(doc.channel.value.items, r.value.image, env)
  {
    if doc.hasParserError then Failure(ParseFailure)
    else match doc.channel
      case None => Failure(ParseFailure)
      case Some(channel) =>
        var image := ChannelImage(channel);
        Success(RSSChannel(
          title := Or(GetElementText(channel.title), UnknownPodcast),
          description := Or(GetElementText(channel.description), ""),
          image := image,
          episodes := FeedEpisodes(channel.items, image, env)))
  }

  /** The episodes of the items that have an audio URL, in document order. */
  function FeedEpisodes(items: seq<Item>, image: string, env: Env): (episodes: seq<Episode>)
    ensures |episodes| <= |items|
    ensures forall k :: 0 <= k < |episodes| ==> episodes[k].audioUrl != ""
  {
    Filter(Candidates(items, image, env), HasAudio)
  }

  /**
   * Feed order is kept: an item appended to the document contributes its episode, if it has
   * audio, after the episodes of every earlier item.
   */
  lemma FeedEpisodesAppend(items: seq<Item>, item: Item, image: string, env: Env)
    ensures FeedEpisodes(items + [item], image, env) ==
            FeedEpisodes(items, image, env) +
            (if AudioUrl(item) != "" then [ParseEpisode(item, |items|, image, env)] else [])
  {
    var e := ParseEpisode(item, |items|, image, env);
    CandidatesAppend(items, item, image, env);
    FilterConcat(Candidates(items, image, env), [e], HasAudio);
    assert Filter([e], HasAudio) == if HasAudio(e) then [e] else [];
  }

  /** The candidate of an appended item comes last, at the item's index. */
  lemma CandidatesAppend(items: seq<Item>, item: Item, image: string, env: Env)
    ensures Candidates(items + [item], image, env) ==
            Candidates(items, image, env) + [ParseEpisode(item, |items|, image, env)]
  {
    MapWithIndexAppend(items, item, ParseAt(image, env));
  }

  /** Every item with an audio URL yields an episode in the result. */
  lemma FeedEpisodesKeepAudioItems(items: seq<Item>, image: string, env: Env, i: nat)
    requires i < |items| && AudioUrl(items[i]) != ""
    ensures ParseEpisode(items[i], i, image, env) in FeedEpisodes(items, image, env)
  {
    var c := Candidates(items, image, env);
    assert HasAudio(c[i]);
  }

  /**
   * The id hashes the raw title (after the `Episode <n>` fallback, before cleaning) and the
   * raw pubDate text, so markup stripping and date parsing cannot change it.
   */
  lemma ParseEpisodeId(item: Item, index: nat, backupImage: string, env: Env, env': Env)
    ensures ParseEpisode(item, index, backupImage, env).id ==
            EpisodeId(RawTitle(item, index), GetElementText(item.pubDate))
    ensures ParseEpisode(item, index, backupImage, env).id == ParseEpisode(item, index, backupImage, env').id
  {
  }

  /** An item without a title is named after its one-based position. */
  lemma TitleFallback(item: Item, index: nat, backupImage: string, env: Env)
    requires GetElementText(item.title) == ""
    ensures ParseEpisode(item, index, backupImage, env).title == env.cleanText("Episode " + Decimal(index + 1))
  {
  }

  /** An item without a description falls back to its itunes:summary. */
  lemma DescriptionFallback(item: Item, index: nat, backupImage: string, env: Env)
    requires GetElementText(item.description) == ""
    ensures ParseEpisode(item, index, backupImage, env).description == env.cleanText(GetElementText(item.itunesSummary))
  {
  }

  /** An item without an image of its own takes the image found for the channel. */
  lemma ThumbnailFallback(item: Item, index: nat, backupImage: string, env: Env)
    requires ItemImage(item) == ""
    ensures ParseEpisode(item, index, backupImage, env).thumbnail == backupImage
  {
  }

  /** When the channel's title lookup yields no text, the feed is the unknown podcast. */
  lemma ChannelTitleFallback(channel: Channel, env: Env)
    requires GetElementText(channel.title) == ""
    ensures ParseRSSFeed(XmlDocument(false, Some(channel)), env).value.title == UnknownPodcast
  {
  }

  /** With an audio-typed enclosure the URL is the first such enclosure's `url`. */
  lemma FirstAudioEnclosure(item: Item, k: nat)
    requires k < |item.enclosures| && HasAudioType(item.enclosures[k])
    requires forall j :: 0 <= j < k ==> !HasAudioType(item.enclosures[j])
    ensures AudioUrl(item) == Attribute(item.enclosures[k], "url")
  {
    var r := FindIndex(item.enclosures, HasAudioType);
    assert r == Some(k);
  }

  /** An audio-typed enclosure wins: media:content is then never consulted. */
  lemma EnclosurePreferred(item: Item, contents: seq<XmlElement>)
    requires exists k :: 0 <= k < |item.enclosures| && HasAudioType(item.enclosures[k])
    ensures AudioUrl(item.(mediaContents := contents)) == AudioUrl(item)
  {
  }

  /** Without an audio-typed enclosure the URL comes from the first audio-typed media:content. */
  lemma MediaContentFallback(item: Item, k: nat)
    requires forall j :: 0 <= j < |item.enclosures| ==> !HasAudioType(item.enclosures[j])
    requires k < |item.mediaContents| && HasAudioType(item.mediaContents[k])
    requires forall j :: 0 <= j < k ==> !HasAudioType(item.mediaContents[j])
    ensures AudioUrl(item) == Attribute(item.mediaContents[k], "url")
  {
    var r := FindIndex(item.mediaContents, HasAudioType);
    assert r == Some(k);
  }
}
