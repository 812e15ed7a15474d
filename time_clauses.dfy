/** The time clauses appended to a SELECT head, and decoders that read the
    numbers back out of them. Each decoder is the partner of one builder: it
    recovers exactly the integers the builder rendered. */
module TimeClauses {
  import opened Wrappers
  import opened Strings
  import opened Decimal
  import opened Schema

  /** `addWhereTimeClause`: an inclusive range on both ends. */
  function AddWhereTimeClause(prefix: string, start: Int64, end: Int64): (sql: string)
    ensures |prefix| <= |sql| && sql[..|prefix|] == prefix
  {
    prefix + " WHERE time >= " + IntToString(start as int) + " AND time <= " + IntToString(end as int)
  }

  /** `addGroupByClause`: a half-open interval and a granularity in
      milliseconds, with a trailing space. */
  function AddGroupByClause(prefix: string, start: Int64, end: Int64, granularity: Int64): (sql: string)
    ensures |prefix| <= |sql| && sql[..|prefix|] == prefix
  {
    prefix + GroupByClause(start, end, granularity)
  }

  /** The group-by clause alone. */
  function GroupByClause(start: Int64, end: Int64, granularity: Int64): string {
    " group by ([" + IntToString(start as int) + "," + IntToString(end as int) + "),"
      + IntToString(granularity as int) + "ms) "
  }

  /** The clause `preciseQuery` puts behind the simple head. */
  function TimeEqualsClause(timestamp: Int64): string {
    " WHERE time = " + IntToString(timestamp as int)
  }

  function StripPrefix(s: string, p: string): Option<string> {
    if |p| <= |s| && s[..|p|] == p then Some(s[|p|..]) else None
  }

  function DecodeTimeEquals(clause: string): Option<int> {
    match StripPrefix(clause, " WHERE time = ")
    case None => None
    case Some(rest) => ParseInt(rest)
  }

  /** Reads a numeral up to the first `c`; returns it and what follows the `c`. */
  function ReadNumberThen(s: string, c: char): Option<(int, string)> {
    var k := IndexOf(s, c);
    if k < 0 then None
    else
      match ParseInt(s[..k])
      case None => None
      case Some(n) => Some((n, s[k + 1..]))
  }

  /** Reads " WHERE time >= <start> AND time <= <end>". */
  function DecodeTimeRange(clause: string): Option<(int, int)> {
    match StripPrefix(clause, " WHERE time >= ")
    case None => None
    case Some(rest) =>
      match ReadNumberThen(rest, ' ')
      case None => None
      case Some((start, tail)) =>
        match StripPrefix(tail, "AND time <= ")
        case None => None
        case Some(last) =>
          match ParseInt(last)
          case None => None
          case Some(end) => Some((start, end))
  }

  /** Reads " group by ([<start>,<end>),<granularity>ms) ". */
  function DecodeGroupBy(clause: string): Option<(int, int, int)> {
    match StripPrefix(clause, " group by ([")
    case None => None
    case Some(rest) =>
      match ReadNumberThen(rest, ',')
      case None => None
      case Some((start, afterStart)) =>
        match DecodeGroupByTail(afterStart)
        case None => None
        case Some((end, granularity)) => Some((start, end, granularity))
  }

  /** Reads "<end>),<granularity>ms) ". */
  function DecodeGroupByTail(s: string): Option<(int, int)> {
    match ReadNumberThen(s, ')')
    case None => None
    case Some((end, afterEnd)) =>
      match StripPrefix(afterEnd, ",")
      case None => None
      case Some(last) =>
        match ReadNumberThen(last, 'm')
        case None => None
        case Some((granularity, unit)) =>
          if unit == "s) " then Some((end, granularity)) else None
  }

  lemma StripPrefixOf(p: string, rest: string)
    ensures StripPrefix(p + rest, p) == Some(rest)
  {
    assert (p + rest)[..|p|] == p;
    assert (p + rest)[|p|..] == rest;
  }

  lemma NumeralAvoids(i: int, c: char)
    requires !IsNumeralChar(c)
    ensures c !in IntToString(i)
  {
    IntToStringChars(i);
  }

  /** A numeral followed by a separator reads back as the integer and the
      text after the separator. */
  lemma ReadNumberThenOf(i: int, c: char, tail: string)
    requires !IsNumeralChar(c)
    ensures ReadNumberThen(IntToString(i) + ([c] + tail), c) == Some((i, tail))
  {
    var n := IntToString(i);
    NumeralAvoids(i, c);
    IndexOfAfter(n, [c] + tail, c);
    assert (n + ([c] + tail))[|n| + 1..] == tail;
    ParseIntToString(i);
  }

  /** The precise query's clause reads back as its timestamp. */
  lemma TimeEqualsClauseDecodes(timestamp: Int64)
    ensures DecodeTimeEquals(TimeEqualsClause(timestamp)) == Some(timestamp as int)
  {
    StripPrefixOf(" WHERE time = ", IntToString(timestamp as int));
    ParseIntToString(timestamp as int);
  }

  /** After the prefix, the WHERE clause reads back as its two bounds. */
  lemma WhereTimeClauseDecodes(prefix: string, start: Int64, end: Int64)
    ensures var sql := AddWhereTimeClause(prefix, start, end);
      DecodeTimeRange(sql[|prefix|..]) == Some((start as int, end as int))
  {
    var s, e := IntToString(start as int), IntToString(end as int);
    var sql := AddWhereTimeClause(prefix, start, end);
    var rest := s + ([' '] + ("AND time <= " + e));
    assert sql[|prefix|..] == " WHERE time >= " + rest;
    StripPrefixOf(" WHERE time >= ", rest);
    ReadNumberThenOf(start as int, ' ', "AND time <= " + e);
    StripPrefixOf("AND time <= ", e);
    ParseIntToString(end as int);
  }

  lemma GroupByTailReads(end: Int64, granularity: Int64)
    ensures DecodeGroupByTail(IntToString(end as int) + ([')'] + ("," + (IntToString(granularity as int) + (['m'] + "s) ")))))
         == Some((end as int, granularity as int))
  {
    var last := IntToString(granularity as int) + (['m'] + "s) ");
    ReadNumberThenOf(end as int, ')', "," + last);
    StripPrefixOf(",", last);
    ReadNumberThenOf(granularity as int, 'm', "s) ");
  }

  lemma GroupByClauseReads(start: Int64, end: Int64, granularity: Int64)
    ensures DecodeGroupBy(GroupByClause(start, end, granularity))
         == Some((start as int, end as int, granularity as int))
  {
    var s, e, g := IntToString(start as int), IntToString(end as int), IntToString(granularity as int);
    var afterStart := e + ([')'] + ("," + (g + (['m'] + "s) "))));
    var rest := s + ([','] + afterStart);
    assert GroupByClause(start, end, granularity) == " group by ([" + rest;
    StripPrefixOf(" group by ([", rest);
    ReadNumberThenOf(start as int, ',', afterStart);
    GroupByTailReads(end, granularity);
  }

  /** After the prefix, the group-by clause reads back as its interval and
      granularity, and ends in "ms) ". */
  lemma GroupByClauseDecodes(prefix: string, start: Int64, end: Int64, granularity: Int64)
    ensures var sql := AddGroupByClause(prefix, start, end, granularity);
      DecodeGroupBy(sql[|prefix|..]) == Some((start as int, end as int, granularity as int))
  {
    AfterPrefix(prefix, GroupByClause(start, end, granularity));
    GroupByClauseReads(start, end, granularity);
  }
}
