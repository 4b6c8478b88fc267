/**
 * The stream topology's text handling: the extractors that pick the grouping
 * key out of an incoming event's JSON with indexOf and substring, and the
 * records written for each window count, which the analytics service parses.
 */
module StreamsConfig {
  import opened Wrappers
  import opened JavaText
  import opened EventState
  import opened Analytics

  const StatusField := "status"
  const PageField := "page"
  const ActionField := "action"
  const UnknownStatus := "UNKNOWN"
  const UnknownPage := "/unknown"
  const DefaultAction := "VIEW"
  const ActionKeyPrefix := "action-"

  /** The text that opens a field's value: the quoted name, a colon and an opening quote. */
  function Marker(field: string): (r: string)
    ensures |r| == |field| + 4 && r[0] == '"'
  {
    "\"" + field + "\":\""
  }

  /**
   * The text between the first `marker` and the next '"' after it. When the
   * marker is missing the start index is at most |marker| - 1 and the
   * default is returned; when the closing quote is missing substring throws
   * and the exception handler returns the default.
   */
  function Extract(json: string, marker: string, default: string): (r: string)
    ensures !Contains(json, marker) ==> r == default
    ensures r == default || '"' !in r
  {
    var start := IndexOf(json, marker, 0) + |marker|;
    if start > |marker| - 1 then
      var end := IndexOf(json, "\"", start);
      if end == -1 then default
      else
        assert forall k :: start <= k < end ==> json[k] != '"' by {
          forall k | start <= k < end
            ensures json[k] != '"'
          {
            assert !OccursAt(json, "\"", k);
            assert json[k..k + 1] == [json[k]];
          }
        }
        json[start..end]
    else default
  }

  /** extractStatus: the grouping key of an order, "UNKNOWN" when it cannot be found. */
  function ExtractStatus(json: string): (r: string)
    ensures !Contains(json, Marker(StatusField)) ==> r == UnknownStatus
    ensures r == UnknownStatus || '"' !in r
  {
    Extract(json, Marker(StatusField), UnknownStatus)
  }

  /** extractPage: the grouping key of a page view, "/unknown" when it cannot be found. */
  function ExtractPage(json: string): (r: string)
    ensures !Contains(json, Marker(PageField)) ==> r == UnknownPage
    ensures r == UnknownPage || '"' !in r
  {
    Extract(json, Marker(PageField), UnknownPage)
  }

  /** extractAction: the grouping key of a page view's action, "VIEW" when it cannot be found. */
  function ExtractAction(json: string): (r: string)
    ensures !Contains(json, Marker(ActionField)) ==> r == DefaultAction
    ensures r == DefaultAction || '"' !in r
  {
    Extract(json, Marker(ActionField), DefaultAction)
  }

  /** With the marker present but no '"' after it, the default comes back. */
  lemma ExtractUnclosed(json: string, marker: string, default: string)
    requires Contains(json, marker)
    requires !Contains(json[IndexOf(json, marker, 0) + |marker|..], "\"")
    ensures Extract(json, marker, default) == default
  {
    var i := IndexOf(json, marker, 0);
    assert i != -1;
    var start := i + |marker|;
    var end := IndexOf(json, "\"", start);
    assert end == -1 by {
      OccursInSuffix(json, "\"", start, end);
    }
  }

  const CountLabel := "count"
  const WindowLabel := "window"

  /** A text between double quotes. */
  function Quoted(x: string): string {
    "\"" + x + "\""
  }

  /** One member of a JSON object: the quoted name, a colon and the value as written. */
  function Member(name: string, value: string): string {
    Quoted(name) + ":" + value
  }

  /** A JSON object of three members, in order. */
  function Object(n1: string, v1: string, n2: string, v2: string, n3: string, v3: string): string {
    "{" + Member(n1, v1) + "," + Member(n2, v2) + "," + Member(n3, v3) + "}"
  }

  /**
   * The value written for one window count:
   * {"<field>":"<key>","count":<n>,"window":"<start>"}.
   */
  function Record(field: string, key: string, count: int, window: string): (r: string)
    ensures '"' !in key ==> forall default :: Extract(r, Marker(field), default) == key
  {
    var json := Object(field, Quoted(key), CountLabel, IntToString(count), WindowLabel, Quoted(window));
    if '"' in key then json
    else
      var rest := "\"" + "," + Member(CountLabel, IntToString(count)) + "," + Member(WindowLabel, Quoted(window)) + "}";
      assert json == "{" + Marker(field) + key + rest;
      assert !OccursAt(json, Marker(field), 0) by {
        assert json[0] == '{';
      }
      assert forall default :: Extract(json, Marker(field), default) == key by {
        forall default
          ensures Extract(json, Marker(field), default) == key
        {
          ExtractAfter("{", Marker(field), key, rest, default);
        }
      }
      json
  }

  /** A record sent to the output topic: the message key and the JSON value. */
  datatype Output = Output(key: string, value: string)

  /** A status count, keyed by the status, whose value gives the status back to extractStatus. */
  function StatusOutput(status: string, count: int, window: string): (o: Output)
    ensures o.key == status
    ensures '"' !in status ==> ExtractStatus(o.value) == status
  {
    Output(status, Record(StatusField, status, count, window))
  }

  /** A page count, keyed by the page, whose value gives the page back to extractPage. */
  function PageOutput(page: string, count: int, window: string): (o: Output)
    ensures o.key == page
    ensures '"' !in page ==> ExtractPage(o.value) == page
  {
    Output(page, Record(PageField, page, count, window))
  }

  /**
   * Action counts are keyed "action-" + the action, apart from status and page
   * keys; the key gives the action back after its prefix, so distinct actions
   * get distinct keys, and the value gives it back to extractAction.
   */
  function ActionOutput(action: string, count: int, window: string): (o: Output)
    ensures StartsWith(o.key, ActionKeyPrefix) && o.key[|ActionKeyPrefix|..] == action
    ensures '"' !in action ==> ExtractAction(o.value) == action
  {
    Output(ActionKeyPrefix + action, Record(ActionField, action, count, window))
  }

  /**
   * With the first marker right after `pre` and the key closed by a quote,
   * the extractor returns the key.
   */
  lemma ExtractAfter(pre: string, marker: string, key: string, rest: string, default: string)
    requires forall j :: 0 <= j < |pre| ==> !OccursAt(pre + marker + key + rest, marker, j)
    requires '"' !in key && rest != [] && rest[0] == '"'
    ensures Extract(pre + marker + key + rest, marker, default) == key
  {
    var json := pre + marker + key + rest;
    assert json[|pre|..|pre| + |marker|] == marker;
    IndexOfFirst(json, marker, |pre|);
    var start := |pre| + |marker|;
    assert json[start..start + |key|] == key;
    assert json[start + |key|] == '"';
    IndexOfCharAfter(json, '"', start, key);
  }

  // ---------------------------------------------------------------------------
  // What the analytics service makes of a record

  /** An opening quote in front of a plain text is deleted. */
  lemma CleanedQuoted(p: string)
    requires Plain(p)
    ensures Cleaned("\"" + p) == p
  {
    CleanedConcat("\"", p);
    CleanedPlain(p);
  }

  /** Both quotes around a plain text are deleted. */
  lemma CleanedQuotedText(x: string)
    requires Plain(x)
    ensures Cleaned(Quoted(x)) == x
  {
    CleanedConcat("\"" + x, "\"");
    CleanedQuoted(x);
  }

  /** A member loses the quotes around its name and keeps the colon. */
  lemma CleanedMember(name: string, value: string)
    requires Plain(name)
    ensures Cleaned(Member(name, value)) == name + ":" + Cleaned(value)
  {
    CleanedConcat(Quoted(name) + ":", value);
    CleanedConcat(Quoted(name), ":");
    CleanedQuotedText(name);
    CleanedPlain(":");
  }

  /** An object of three members without braces and quotes: "n1:v1,n2:v2,n3:v3". */
  lemma CleanedObject(n1: string, v1: string, n2: string, v2: string, n3: string, v3: string)
    requires Plain(n1) && Plain(v1) && Plain(n2) && Plain(v2) && Plain(n3) && Plain(v3)
    ensures Cleaned(Object(n1, Quoted(v1), n2, v2, n3, Quoted(v3)))
         == (n1 + ":" + v1) + "," + (n2 + ":" + v2) + "," + (n3 + ":" + v3)
  {
    var m1, m2, m3 := Member(n1, Quoted(v1)), Member(n2, v2), Member(n3, Quoted(v3));
    CleanedMember(n1, Quoted(v1));
    CleanedQuotedText(v1);
    CleanedMember(n2, v2);
    CleanedPlain(v2);
    CleanedMember(n3, Quoted(v3));
    CleanedQuotedText(v3);
    var o, c, e := "{", ",", "}";
    CleanedPlain(c);
    CleanedConcat(o, m1);
    CleanedConcat(o + m1, c);
    CleanedConcat(o + m1 + c, m2);
    CleanedConcat(o + m1 + c + m2, c);
    CleanedConcat(o + m1 + c + m2 + c, m3);
    CleanedConcat(o + m1 + c + m2 + c + m3, e);
  }

  /** A window start holding ':' makes its piece hold two colons, so the piece is dropped. */
  lemma ColonWindowDropped(name: string, a: string, b: string)
    requires ':' !in name && ':' !in a && b != "" && b[|b| - 1] != ':'
    ensures PairOf(name + ":" + (a + ":" + b)) == None
  {
    ColonInValueDropped(name, a, b);
    assert name + ":" + (a + ":" + b) == name + ":" + a + ":" + b;
  }

  /** Pairs for the first two pieces and none for the third give a map of two entries. */
  lemma PutAllTwo(pairs: seq<Option<(string, Value)>>, k1: string, w1: Value, k2: string, w2: Value)
    requires |pairs| == 3 && pairs[0] == Some((k1, w1)) && pairs[1] == Some((k2, w2)) && pairs[2] == None
    ensures PutAll(pairs) == map[k1 := w1, k2 := w2]
  {
    assert pairs[..1][..0] == [];
    assert PutAll(pairs[..1]) == map[k1 := w1];
    assert pairs[..2][..1] == pairs[..1];
    assert PutAll(pairs[..2]) == map[k1 := w1, k2 := w2];
  }

  /** Three comma-free pieces of which the first two are pairs and the third is not give a map of two entries. */
  lemma ParsedPieces(n1: string, v1: string, n2: string, v2: string, n3: string, v3: string,
                     e1: (string, Value), e2: (string, Value))
    requires ',' !in n1 && ',' !in v1 && ',' !in n2 && ',' !in v2 && ',' !in n3 && ',' !in v3
    requires PairOf(n1 + ":" + v1) == Some(e1) && PairOf(n2 + ":" + v2) == Some(e2) && PairOf(n3 + ":" + v3) == None
    ensures PutAll(PairsOf(Split((n1 + ":" + v1) + "," + (n2 + ":" + v2) + "," + (n3 + ":" + v3), ',')))
         == map[e1.0 := e1.1, e2.0 := e2.1]
  {
    var p1, p2, p3 := n1 + ":" + v1, n2 + ":" + v2, n3 + ":" + v3;
    assert p1 + "," + p2 + "," + p3 == p1 + [','] + p2 + [','] + p3;
    SplitTriple(p1, p2, p3, ',');
    var pieces := [p1, p2, p3];
    var pairs := PairsOf(pieces);
    assert pairs[0] == PairOf(pieces[0]) && pairs[1] == PairOf(pieces[1]) && pairs[2] == PairOf(pieces[2]);
    PutAllTwo(pairs, e1.0, e1.1, e2.0, e2.1);
  }

  /** The count's digits hold no brace, quote, comma or colon, and no blank at either end. */
  lemma CountText(count: int)
    ensures var d := IntToString(count);
      Plain(d) && ',' !in d && ':' !in d && d != "" && Trim(d) == d
  {
    var d := IntToString(count);
    IntToStringChars(count);
    forall i | 0 <= i < |d|
      ensures d[i] != '{' && d[i] != '}' && d[i] != '"' && d[i] != ',' && d[i] != ':'
    {
    }
    TrimOfTrimmed(d);
  }

  /** A member name the parse keeps as it is: plain, without ',' or ':', and not blank at either end. */
  predicate PlainName(name: string) {
    Plain(name) && ',' !in name && ':' !in name && name != "" && !IsTrimmed(name[0]) && !IsTrimmed(name[|name| - 1])
  }

  /**
   * An object of a quoted key, a count and a quoted window start holding ':'
   * parses to the key and the count; the window's piece is dropped.
   */
  lemma ParsedObject(field: string, key: string, cl: string, count: int, wl: string, a: string, b: string)
    requires Plain(field) && Plain(key) && Plain(a) && Plain(b) && PlainName(cl) && PlainName(wl)
    requires ',' !in field && ',' !in key && ',' !in a && ',' !in b
    requires ':' !in field && ':' !in key && ':' !in a
    requires key != "" && b != "" && b[|b| - 1] != ':'
    requires MinLong <= count <= MaxLong
    ensures Parsed(Object(field, Quoted(key), cl, IntToString(count), wl, Quoted(a + ":" + b)))
         == map[Trim(field) := ParseValue(Trim(key)), cl := Number(count)]
  {
    var d := IntToString(count);
    var window := a + ":" + b;
    assert Plain(window) && ',' !in window;
    CountText(count);
    CleanedObject(field, key, cl, d, wl, window);
    TrimOfTrimmed(cl);
    ParseLongOfIntToString(count);
    PairOfKeyValue(field, key);
    PairOfKeyValue(cl, d);
    ColonWindowDropped(wl, a, b);
    ParsedPieces(field, key, cl, d, wl, window, (Trim(field), ParseValue(Trim(key))), (cl, Number(count)));
  }

  /**
   * The analytics service's parse of a record with an ISO window start (one
   * holding ':'): the field's key and the count come through, the window is
   * dropped.
   */
  lemma ParsedRecord(field: string, key: string, count: int, a: string, b: string)
    requires Plain(field) && Plain(key) && Plain(a) && Plain(b)
    requires ',' !in field && ',' !in key && ',' !in a && ',' !in b
    requires ':' !in field && ':' !in key && ':' !in a
    requires key != "" && b != "" && b[|b| - 1] != ':'
    requires MinLong <= count <= MaxLong
    ensures Parsed(Record(field, key, count, a + ":" + b))
         == map[Trim(field) := ParseValue(Trim(key)), CountLabel := Number(count)]
  {
    ParsedObject(field, key, CountLabel, count, WindowLabel, a, b);
  }
}
