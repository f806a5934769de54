/**
 * Display helpers of a post card: code truncation, the relative-age label
 * and the author/language defaults. The age label is shared with the
 * detail page, which follows the same ladder.
 */
module PostCard {
  import opened Wrappers
  import opened Text
  import opened PostService

  const MaxLines := 10
  const UnknownAuthor := "알 수 없는 사용자"
  const DefaultLanguage := "javascript"

  const MinuteMs := 60000
  const HourMs := 3600000
  const DayMs := 86400000

  /** At most ten lines of code; a longer text is cut after its tenth line and marked with "...". */
  function TruncateCode(code: string): (r: string)
    ensures |Lines(code)| <= MaxLines ==> r == code
  {
    var lines := Lines(code);
    if |lines| <= MaxLines then code else JoinLines(lines[..MaxLines]) + "\n..."
  }

  /**
   * Long code is cut at the newline that ends its tenth line: the result is
   * a proper prefix of the code followed by "\n...", and it reads as the
   * code's first ten lines plus a line "...".
   */
  lemma LongCodeTruncated(code: string)
    requires |Lines(code)| > MaxLines
    ensures exists k :: 0 <= k < |code| && code[k] == '\n' && TruncateCode(code) == code[..k] + "\n..."
    ensures Lines(TruncateCode(code)) == Lines(code)[..MaxLines] + ["..."]
  {
    var lines := Lines(code);
    var head := JoinLines(lines[..MaxLines]);
    JoinLinesOfLines(code);
    JoinLinesSplit(lines, MaxLines);
    var k := |head|;
    assert code == head + "\n" + JoinLines(lines[MaxLines..]);
    assert code[..k] == head && code[k] == '\n';
    var shown := lines[..MaxLines] + ["..."];
    assert shown[..MaxLines] == lines[..MaxLines] && shown[MaxLines..] == ["..."];
    JoinLinesSplit(shown, MaxLines);
    assert JoinLines(shown) == head + "\n...";
    forall i | 0 <= i < |shown| ensures '\n' !in shown[i] {
      if i < MaxLines { assert shown[i] == lines[i]; }
    }
    LinesOfJoinLines(shown);
  }

  /** The relative-age label of a post. */
  datatype Age =
    | JustNow
    | MinutesAgo(minutes: nat)
    | HoursAgo(hours: nat)
    | Yesterday
    | DaysAgo(days: nat)
    | OnDate   // an absolute date, rendered by the locale

  /**
   * `formatDate` given the distance in milliseconds between now and the
   * creation time; the three units are floored divisions of that distance.
   */
  function AgeLabel(diff: nat): (r: Age)
    ensures r == JustNow <==> diff < MinuteMs
    ensures r.MinutesAgo? <==> MinuteMs <= diff < HourMs
    ensures r.HoursAgo? <==> HourMs <= diff < DayMs
    ensures r == Yesterday <==> DayMs <= diff < 2 * DayMs
    ensures r.DaysAgo? <==> 2 * DayMs <= diff < 7 * DayMs
    ensures r == OnDate <==> diff >= 7 * DayMs
    ensures r.MinutesAgo? ==> 1 <= r.minutes < 60 && r.minutes * MinuteMs <= diff < (r.minutes + 1) * MinuteMs
    ensures r.HoursAgo? ==> 1 <= r.hours < 24 && r.hours * HourMs <= diff < (r.hours + 1) * HourMs
    ensures r.DaysAgo? ==> 2 <= r.days < 7 && r.days * DayMs <= diff < (r.days + 1) * DayMs
  {
    var diffDays := diff / DayMs;
    var diffHours := diff / HourMs;
    var diffMinutes := diff / MinuteMs;
    if diffMinutes < 1 then JustNow
    else if diffMinutes < 60 then MinutesAgo(diffMinutes)
    else if diffHours < 24 then HoursAgo(diffHours)
    else if diffDays == 1 then Yesterday
    else if diffDays < 7 then DaysAgo(diffDays)
    else OnDate
  }

  function Abs(x: int): nat {
    if x < 0 then -x else x
  }

  /** The label from the two timestamps: only their distance matters. */
  function AgeBetween(now: int, created: int): (r: Age)
    ensures r == JustNow <==> -MinuteMs < now - created < MinuteMs
    ensures r == OnDate <==> now - created >= 7 * DayMs || created - now >= 7 * DayMs
  {
    AgeLabel(Abs(now - created))
  }

  /** A creation time in the future is labelled like one equally far in the past. */
  lemma FutureLikePast(now: int, d: nat)
    ensures AgeBetween(now, now + d) == AgeBetween(now, now - d)
  {
  }

  const JustNowText := "방금 전"
  const YesterdayText := "어제"
  const MinutesSuffix := "분 전"
  const HoursSuffix := "시간 전"
  const DaysSuffix := "일 전"

  /** `t` is the decimal count `n` followed by the unit text `unit`. */
  predicate ShowsCount(t: string, n: nat, unit: string) {
    |t| > |unit| && t[|t| - |unit|..] == unit
    && (forall i :: 0 <= i < |t| - |unit| ==> '0' <= t[i] <= '9')
    && DecValue(t[..|t| - |unit|]) == n
  }

  /** Printing a count before a unit shows that count. */
  lemma CountText(n: nat, unit: string)
    ensures ShowsCount(Decimal(n) + unit, n, unit)
  {
    var t := Decimal(n) + unit;
    assert t[..|t| - |unit|] == Decimal(n);
    assert t[|t| - |unit|..] == unit;
    DecimalValue(n);
  }

  /**
   * The text shown for a relative label: fixed words for "just now" and
   * "yesterday", otherwise the count followed by its unit; an absolute date
   * has none here.
   */
  function AgeText(a: Age): (r: Option<string>)
    ensures r.None? <==> a == OnDate
    ensures a == JustNow ==> r == Some(JustNowText)
    ensures a == Yesterday ==> r == Some(YesterdayText)
    ensures a.MinutesAgo? ==> r.Some? && ShowsCount(r.value, a.minutes, MinutesSuffix)
    ensures a.HoursAgo? ==> r.Some? && ShowsCount(r.value, a.hours, HoursSuffix)
    ensures a.DaysAgo? ==> r.Some? && ShowsCount(r.value, a.days, DaysSuffix)
  {
    match a
    case JustNow => Some(JustNowText)
    case MinutesAgo(m) => CountText(m, MinutesSuffix); Some(Decimal(m) + MinutesSuffix)
    case HoursAgo(h) => CountText(h, HoursSuffix); Some(Decimal(h) + HoursSuffix)
    case Yesterday => Some(YesterdayText)
    case DaysAgo(d) => CountText(d, DaysSuffix); Some(Decimal(d) + DaysSuffix)
    case OnDate => None
  }

  /**
   * The label text as `formatDate` prints it: under an hour, the floored
   * number of minutes; under a day, of hours; from two to six days, of days.
   */
  lemma AgeTextShowsFlooredCount(diff: nat)
    ensures MinuteMs <= diff < HourMs ==> ShowsCount(AgeText(AgeLabel(diff)).value, diff / MinuteMs, MinutesSuffix)
    ensures HourMs <= diff < DayMs ==> ShowsCount(AgeText(AgeLabel(diff)).value, diff / HourMs, HoursSuffix)
    ensures 2 * DayMs <= diff < 7 * DayMs ==> ShowsCount(AgeText(AgeLabel(diff)).value, diff / DayMs, DaysSuffix)
  {
  }

  /** `author?.name || "알 수 없는 사용자"`: the author's name when non-empty; never blank. */
  function DisplayName(author: Option<Author>): (r: string)
    ensures r != ""
    ensures author.Some? && author.value.name != "" ==> r == author.value.name
    ensures author.None? || author.value.name == "" ==> r == UnknownAuthor
  {
    if author.Some? && author.value.name != "" then author.value.name else UnknownAuthor
  }

  /**
   * The card's `language = "javascript"` parameter default: it applies only
   * when the language is absent, so an empty language stays empty.
   */
  function CardLanguage(language: Option<string>): (r: string)
    ensures language.None? ==> r == DefaultLanguage
    ensures language.Some? ==> r == language.value
  {
    language.GetOr(DefaultLanguage)
  }
}
