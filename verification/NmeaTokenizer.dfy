// Debug NMEA sentences are cut into fields: the first `*`, which starts the checksum, counts as a
// comma, and what follows the last comma is dropped.
module NmeaTokenizer {

  const NMEA_MINSIZE := 6
  const NMEA_MAXSIZE := 4096

  // loc_nmea_is_debug
  predicate IsDebug(s: string) {
    NMEA_MINSIZE <= |s| <= NMEA_MAXSIZE && "$PQW" <= s
  }

  function FindFrom(s: string, c: char, i: nat): (n: nat)
    requires i <= |s|
    ensures i <= n <= |s|
    decreases |s| - i
  {
    if i == |s| || s[i] == c then i else FindFrom(s, c, i + 1)
  }

  // The first position of `c`, |s| if there is none.
  function Find(s: string, c: char): (n: nat)
    ensures n <= |s|
  {
    FindFrom(s, c, 0)
  }

  lemma {:induction false} FindFromIs(s: string, c: char, i: nat, n: nat)
    requires i <= n <= |s| && (n < |s| ==> s[n] == c) && forall j :: i <= j < n ==> s[j] != c
    ensures FindFrom(s, c, i) == n
    decreases n - i
  {
    if i < n {
      FindFromIs(s, c, i + 1, n);
    }
  }

  lemma {:induction false} FindFromStops(s: string, c: char, i: nat)
    requires i <= |s|
    ensures var n := FindFrom(s, c, i);
            (n < |s| ==> s[n] == c) && forall j :: i <= j < n ==> s[j] != c
    decreases |s| - i
  {
    if i < |s| && s[i] != c {
      FindFromStops(s, c, i + 1);
    }
  }

  lemma FindIs(s: string, c: char, n: nat)
    requires n <= |s| && (n < |s| ==> s[n] == c) && forall j :: 0 <= j < n ==> s[j] != c
    ensures Find(s, c) == n
  {
    FindFromIs(s, c, 0, n);
  }

  lemma FindStops(s: string, c: char)
    ensures var n := Find(s, c);
            c !in s[..n] && (n < |s| ==> s[n] == c) && (n == |s| <==> c !in s)
  {
    FindFromStops(s, c, 0);
    var n := Find(s, c);
    if n == |s| {
      assert s[..n] == s;
    } else {
      assert s[n] in s;
    }
  }

  // ---- fields of a string, and back ----

  function Fields(s: string): seq<string>
    decreases |s|
  {
    var n := Find(s, ',');
    if n == |s| then [] else [s[..n]] + Fields(s[n + 1..])
  }

  function Leftover(s: string): string
    decreases |s|
  {
    var n := Find(s, ',');
    if n == |s| then s else Leftover(s[n + 1..])
  }

  // Every field followed by a comma.
  function Terminated(fields: seq<string>): string {
    if fields == [] then "" else fields[0] + "," + Terminated(fields[1..])
  }

  function Commas(s: string): nat {
    if s == [] then 0 else (if s[0] == ',' then 1 else 0) + Commas(s[1..])
  }

  predicate CommaFree(fields: seq<string>) {
    forall f :: f in fields ==> ',' !in f
  }

  lemma {:induction false} CommasOfSum(a: string, b: string)
    ensures Commas(a + b) == Commas(a) + Commas(b)
    decreases |a|
  {
    if a == [] {
      assert a + b == b;
    } else {
      CommasOfSum(a[1..], b);
      assert (a + b)[1..] == a[1..] + b;
    }
  }

  lemma {:induction false} NoCommas(s: string)
    ensures Commas(s) == 0 <==> ',' !in s
    decreases |s|
  {
    if s != [] {
      NoCommas(s[1..]);
      assert s == [s[0]] + s[1..];
    }
  }

  lemma CutAtComma(s: string, n: nat)
    requires n < |s| && s[n] == ','
    ensures s == s[..n] + "," + s[n + 1..]
  {
    assert s == s[..n] + [s[n]] + s[n + 1..];
  }

  lemma FieldsFrom(s: string, n: nat)
    requires n == Find(s, ',') < |s|
    ensures Fields(s) == [s[..n]] + Fields(s[n + 1..]) && Leftover(s) == Leftover(s[n + 1..])
  {
  }

  // Joining the fields and the leftover rebuilds the string.
  lemma {:induction false} JoinUndoesSplit(s: string)
    ensures Terminated(Fields(s)) + Leftover(s) == s
    decreases |s|
  {
    var n := Find(s, ',');
    if n < |s| {
      FindStops(s, ',');
      CutAtComma(s, n);
      FieldsFrom(s, n);
      JoinUndoesSplit(s[n + 1..]);
      FirstField(s, s[..n], s[n + 1..]);
    }
  }

  lemma FirstField(s: string, field: string, rest: string)
    requires s == field + "," + rest && Terminated(Fields(rest)) + Leftover(rest) == rest
    ensures Terminated([field] + Fields(rest)) + Leftover(rest) == s
  {
    TerminatedFirst(field, Fields(rest));
    Associate(field + ",", Terminated(Fields(rest)), Leftover(rest));
  }

  lemma TerminatedFirst(field: string, fields: seq<string>)
    ensures Terminated([field] + fields) == field + "," + Terminated(fields)
  {
    assert ([field] + fields)[1..] == fields;
  }

  lemma Associate<T>(a: seq<T>, b: seq<T>, c: seq<T>)
    ensures a + b + c == a + (b + c)
  {
  }

  lemma CommasAround(a: string, c: char, b: string)
    ensures Commas(a + [c] + b) == Commas(a) + (if c == ',' then 1 else 0) + Commas(b)
  {
    CommasOfSum(a, [c] + b);
    assert a + [c] + b == a + ([c] + b) && ([c] + b)[1..] == b;
  }

  lemma CommasAt(s: string, n: nat)
    requires n < |s| && s[n] == ',' && ',' !in s[..n]
    ensures Commas(s) == 1 + Commas(s[n + 1..])
  {
    CutAtComma(s, n);
    NoCommas(s[..n]);
    CommasAround(s[..n], ',', s[n + 1..]);
  }

  lemma CommasAtFirst(s: string)
    requires ',' in s
    ensures var n := Find(s, ','); n < |s| && Commas(s) == 1 + Commas(s[n + 1..])
  {
    FindStops(s, ',');
    CommasAt(s, Find(s, ','));
  }

  lemma ConsCommaFree(field: string, fields: seq<string>)
    requires ',' !in field && CommaFree(fields)
    ensures CommaFree([field] + fields)
  {
  }

  // No field holds a comma.
  lemma {:induction false} FieldsAreCommaFree(s: string)
    ensures CommaFree(Fields(s)) && ',' !in Leftover(s)
    decreases |s|
  {
    FindStops(s, ',');
    var n := Find(s, ',');
    if n < |s| {
      FieldsAreCommaFree(s[n + 1..]);
      ConsCommaFree(s[..n], Fields(s[n + 1..]));
    }
  }

  // There are as many fields as commas.
  lemma {:induction false} FieldsCountCommas(s: string)
    ensures |Fields(s)| == Commas(s)
    decreases |s|
  {
    FindStops(s, ',');
    NoCommas(s);
    if ',' in s {
      CommasAtFirst(s);
      FieldsCountCommas(s[Find(s, ',') + 1..]);
    }
  }

  lemma FindFirst(field: string, rest: string, c: char)
    requires c !in field
    ensures Find(field + [c] + rest, c) == |field|
  {
    var s := field + [c] + rest;
    forall j | 0 <= j < |field|
      ensures s[j] != c
    {
      assert s[j] == field[j] && field[j] in field;
    }
    FindIs(s, c, |field|);
  }

  // Splitting undoes joining.
  lemma {:induction false} SplitUndoesJoin(fields: seq<string>, leftover: string)
    requires CommaFree(fields) && ',' !in leftover
    ensures Fields(Terminated(fields) + leftover) == fields && Leftover(Terminated(fields) + leftover) == leftover
    decreases |fields|
  {
    var s := Terminated(fields) + leftover;
    if fields == [] {
      assert s == leftover;
      FindStops(s, ',');
    } else {
      var rest := Terminated(fields[1..]) + leftover;
      assert s == fields[0] + "," + rest;
      FindFirst(fields[0], rest, ',');
      SplitUndoesJoin(fields[1..], leftover);
      assert s[|fields[0]| + 1..] == rest && s[..|fields[0]|] == fields[0];
    }
  }

  // ---- sentences ----

  // The sentence with its first `*` made a comma.
  function Opened(s: string): string
    requires '*' in s
  {
    var n := Find(s, '*');
    s[..n] + "," + if n < |s| then s[n + 1..] else ""
  }

  function Tokens(s: string): seq<string> {
    if IsDebug(s) && '*' in s then Fields(Opened(s)) else []
  }

  // A sentence is what its fields and the leftover say, up to the first `*`.
  lemma TokensRebuild(s: string)
    requires IsDebug(s) && '*' in s
    ensures Terminated(Tokens(s)) + Leftover(Opened(s)) == Opened(s)
    ensures CommaFree(Tokens(s)) && |Tokens(s)| == Commas(s) + 1
  {
    JoinUndoesSplit(Opened(s));
    FieldsAreCommaFree(Opened(s));
    FieldsCountCommas(Opened(s));
    CommasOfOpened(s);
  }

  // Which sentences are cut at all.
  lemma CutExactly(s: string)
    ensures Tokens(s) != [] <==> 6 <= |s| <= 4096 && s[..4] == "$PQW" && '*' in s
  {
    if IsDebug(s) && '*' in s {
      FindStops(s, '*');
      FindStops(Opened(s), ',');
      var n := Find(s, '*');
      assert Opened(s)[n] == ',' && ',' in Opened(s);
    }
  }

  lemma CommasOfOpened(s: string)
    requires '*' in s
    ensures Commas(Opened(s)) == Commas(s) + 1
  {
    FindStops(s, '*');
    var n := Find(s, '*');
    var tail := s[n + 1..];
    CommasAround(s[..n], ',', tail);
    CommasAround(s[..n], '*', tail);
    assert s == s[..n] + ['*'] + tail && Opened(s) == s[..n] + [','] + tail;
  }

  // Fields separated by commas.
  function Separated(fields: seq<string>): string
    requires fields != []
  {
    if |fields| == 1 then fields[0] else fields[0] + "," + Separated(fields[1..])
  }

  lemma {:induction false} SeparatedIsTerminated(fields: seq<string>)
    requires fields != []
    ensures Separated(fields) + "," == Terminated(fields)
    decreases |fields|
  {
    if |fields| == 1 {
      assert Terminated(fields[1..]) == "";
    } else {
      SeparatedIsTerminated(fields[1..]);
      assert fields[0] + "," + (Separated(fields[1..]) + ",") == fields[0] + "," + Separated(fields[1..]) + ",";
    }
  }

  // A well-formed sentence, its fields separated by commas and followed by a checksum, is cut into
  // exactly its fields.
  lemma SentenceIsParsed(fields: seq<string>, checksum: string)
    requires fields != [] && CommaFree(fields) && '*' !in Separated(fields) && ',' !in checksum
    requires IsDebug(Separated(fields) + "*" + checksum)
    ensures Tokens(Separated(fields) + "*" + checksum) == fields
  {
    var body := Separated(fields);
    var s := body + "*" + checksum;
    FindFirst(body, checksum, '*');
    assert s[|body|] == '*' && s[..|body|] == body && s[|body| + 1..] == checksum;
    SeparatedIsTerminated(fields);
    SplitUndoesJoin(fields, checksum);
  }

  // ---- the parser as it runs ----

  lemma NextField(s: string, fields: seq<string>, all: seq<string>)
    requires ',' in s && fields + Fields(s) == all
    ensures var n := Find(s, ','); n < |s| && fields + [s[..n]] + Fields(s[n + 1..]) == all
  {
    FindStops(s, ',');
    var n := Find(s, ',');
    FieldsFrom(s, n);
    Associate(fields, [s[..n]], Fields(s[n + 1..]));
  }

  method FindChar(s: string, c: char) returns (index: nat, found: bool)
    ensures index == Find(s, c) && (found <==> c in s) && (found <==> index < |s|)
  {
    index := 0;
    while index < |s| && s[index] != c
      invariant index <= |s| && forall j :: 0 <= j < index ==> s[j] != c
    {
      index := index + 1;
    }
    FindIs(s, c, index);
    FindStops(s, c);
    found := index < |s|;
  }

  class SystemStatusNmeaBase {
    var mField: seq<string>

    constructor (sentence: string)
      ensures mField == Tokens(sentence)
    {
      mField := [];
      new;
      if !IsDebug(sentence) {
        return;
      }
      var parser := sentence;
      var index, found := FindChar(parser, '*');
      if !found {
        return;
      }
      parser := parser[index := ','];
      assert parser == Opened(sentence);
      ghost var all := Fields(parser);
      while true
        invariant mField + Fields(parser) == all
        decreases |parser|
      {
        index, found := FindChar(parser, ',');
        FindStops(parser, ',');
        if !found {
          break;
        }
        NextField(parser, mField, all);
        var str := parser[..index];
        parser := parser[index + 1..];
        mField := mField + [str];
      }
    }
  }
}
