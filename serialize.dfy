/**
 * The two file formats `main` writes: newline-delimited JSON (one
 * `json.dumps` line per record, joined with '\n') for every dataset, and
 * a CSV rendering with a sorted header for the viewing sessions.
 */
module Serialize {
  import opened Text
  import opened Records

  // ---------------------------------------------------------------------
  // Newline-delimited JSON
  // ---------------------------------------------------------------------

  /** The encoding of each record, in order; `encode` stands for `json.dumps`. */
  function EncodeAll(dataset: seq<Record>, encode: Record -> string): (lines: seq<string>)
    ensures |lines| == |dataset|
    ensures forall i :: 0 <= i < |dataset| ==> lines[i] == encode(dataset[i])
  {
    seq(|dataset|, i requires 0 <= i < |dataset| => encode(dataset[i]))
  }

  /** `'\n'.join([json.dumps(record) for record in dataset])`. */
  function Ndjson(dataset: seq<Record>, encode: Record -> string): string {
    Join('\n', EncodeAll(dataset, encode))
  }

  /** A line encoding: no record's encoding spans more than one line. */
  predicate SingleLine(dataset: seq<Record>, encode: Record -> string) {
    forall i :: 0 <= i < |dataset| ==> '\n' !in encode(dataset[i])
  }

  /**
   * The NDJSON body splits back into exactly one line per record, the i-th
   * line being the i-th record's encoding.
   */
  lemma NdjsonLines(dataset: seq<Record>, encode: Record -> string)
    requires |dataset| >= 1 && SingleLine(dataset, encode)
    ensures Split(Ndjson(dataset, encode), '\n') == EncodeAll(dataset, encode)
  {
    SplitJoin(EncodeAll(dataset, encode), '\n');
  }

  /** With a decoder for the encoding, every record reads back from its line, in order. */
  lemma NdjsonRoundTrip(dataset: seq<Record>, encode: Record -> string, decode: string -> Record)
    requires |dataset| >= 1 && SingleLine(dataset, encode)
    requires forall i :: 0 <= i < |dataset| ==> decode(encode(dataset[i])) == dataset[i]
    ensures var lines := Split(Ndjson(dataset, encode), '\n');
      |lines| == |dataset| && forall i :: 0 <= i < |lines| ==> decode(lines[i]) == dataset[i]
  {
    NdjsonLines(dataset, encode);
  }

  /**
   * An empty dataset gives an empty body; otherwise the body ends with the
   * last record's encoding, so there is no trailing newline.
   */
  lemma NdjsonEnds(dataset: seq<Record>, encode: Record -> string)
    ensures |dataset| == 0 ==> Ndjson(dataset, encode) == ""
    ensures |dataset| >= 1 ==>
      var body := Ndjson(dataset, encode);
      var last := encode(dataset[|dataset| - 1]);
      |body| >= |last| && body[|body| - |last|..] == last
  {
    if |dataset| >= 1 {
      JoinEndsWithLast('\n', EncodeAll(dataset, encode));
    }
  }

  // ---------------------------------------------------------------------
  // The CSV header: the sorted union of the records' keys
  // ---------------------------------------------------------------------

  /** The keys of all records: `all_keys.update(item.keys())` over the dataset. */
  function KeyUnion(dataset: seq<Record>): set<Field> {
    if |dataset| == 0 then {} else KeyUnion(dataset[..|dataset| - 1]) + dataset[|dataset| - 1].Keys
  }

  /** A key is in the union exactly when some record has it. */
  lemma {:induction false} KeyUnionMembers(dataset: seq<Record>, f: Field)
    ensures f in KeyUnion(dataset) <==> exists i :: 0 <= i < |dataset| && f in dataset[i]
  {
    if |dataset| > 0 {
      var init := dataset[..|dataset| - 1];
      KeyUnionMembers(init, f);
      if f in KeyUnion(init) {
        var i :| 0 <= i < |init| && f in init[i];
        assert dataset[i] == init[i];
      }
      if exists i :: 0 <= i < |dataset| && f in dataset[i] {
        var i :| 0 <= i < |dataset| && f in dataset[i];
        if i < |init| {
          assert init[i] == dataset[i];
        }
      }
    }
  }

  /** Strictly increasing (so also without repeats). */
  predicate Increasing(fs: seq<Field>) {
    forall i, j :: 0 <= i < j < |fs| ==> fs[i] < fs[j]
  }

  /** Strictly increasing by key string under Python's `<` on `str`. */
  predicate SortedByName(fs: seq<Field>) {
    forall i, j :: 0 <= i < j < |fs| ==> StrLess(Name(fs[i]), Name(fs[j]))
  }

  /** The members of keys from r on, in increasing order. */
  function FieldsFrom(keys: set<Field>, r: nat): (ks: seq<Field>)
    requires r <= 32
    ensures Increasing(ks)
    ensures forall i :: 0 <= i < |ks| ==> ks[i] in keys && r <= ks[i]
    ensures forall f :: f in keys && r <= f ==> f in ks
    decreases 32 - r
  {
    if r == 32 then []
    else if r in keys then [r] + FieldsFrom(keys, r + 1)
    else FieldsFrom(keys, r + 1)
  }

  /** `sorted(list(all_keys))`: the keys, each once, in increasing key-string order. */
  function SortedKeys(keys: set<Field>): (ks: seq<Field>)
    ensures Increasing(ks)
    ensures forall f :: f in ks <==> f in keys
  {
    FieldsFrom(keys, 0)
  }

  /** Increasing fields are increasing key strings, and back. */
  lemma IncreasingByName(fs: seq<Field>)
    ensures Increasing(fs) <==> SortedByName(fs)
  {
    forall i, j | 0 <= i < j < |fs|
      ensures fs[i] < fs[j] <==> StrLess(Name(fs[i]), Name(fs[j]))
    {
      NameOrder(fs[i], fs[j]);
    }
  }

  /** The header is sorted by key string and lists exactly the keys. */
  lemma SortedKeysSorted(keys: set<Field>)
    ensures SortedByName(SortedKeys(keys))
    ensures forall f :: f in SortedKeys(keys) <==> f in keys
  {
    IncreasingByName(SortedKeys(keys));
  }

  /**
   * A set has only one listing sorted by key string, so the header does not
   * depend on the order in which `list` happened to enumerate the keys.
   */
  lemma SortedKeysUnique(keys: set<Field>, fs: seq<Field>)
    requires SortedByName(fs)
    requires forall f :: f in fs <==> f in keys
    ensures fs == SortedKeys(keys)
  {
    IncreasingByName(fs);
    IncreasingUnique(fs, SortedKeys(keys));
  }

  /** Two increasing lists of the same fields are the same list. */
  lemma {:induction false} IncreasingUnique(a: seq<Field>, b: seq<Field>)
    requires Increasing(a) && Increasing(b)
    requires forall f :: f in a <==> f in b
    ensures a == b
    decreases |a|
  {
    if |a| > 0 {
      assert a[0] in a;
    }
    if |b| > 0 {
      assert b[0] in b;
    }
    if |a| > 0 && |b| > 0 {
      var k :| 0 <= k < |b| && b[k] == a[0];
      var m :| 0 <= m < |a| && a[m] == b[0];
      assert a[0] <= a[m] && b[0] <= b[k];
      forall f ensures f in a[1..] <==> f in b[1..] {
        if f in a[1..] {
          var i :| 0 <= i < |a[1..]| && a[1..][i] == f;
          assert a[i + 1] == f && f in a;
          var j :| 0 <= j < |b| && b[j] == f;
          assert j != 0;
          assert b[1..][j - 1] == f;
        }
        if f in b[1..] {
          var i :| 0 <= i < |b[1..]| && b[1..][i] == f;
          assert b[i + 1] == f && f in b;
          var j :| 0 <= j < |a| && a[j] == f;
          assert j != 0;
          assert a[1..][j - 1] == f;
        }
      }
      IncreasingUnique(a[1..], b[1..]);
    }
  }

  // ---------------------------------------------------------------------
  // The CSV text
  // ---------------------------------------------------------------------

  /** The header cells: the key strings. */
  function Names(ks: seq<Field>): (names: seq<string>)
    ensures |names| == |ks|
    ensures forall i :: 0 <= i < |ks| ==> names[i] == Name(ks[i])
  {
    seq(|ks|, i requires 0 <= i < |ks| => Name(ks[i]))
  }

  /** A row's cells: `str(item.get(k, ''))` for each header key. */
  function Cells(item: Record, ks: seq<Field>): (cells: seq<string>)
    ensures |cells| == |ks|
    ensures forall i :: 0 <= i < |ks| ==> cells[i] == Render(Get(item, ks[i], Str("")))
  {
    seq(|ks|, i requires 0 <= i < |ks| => Render(Get(item, ks[i], Str(""))))
  }

  /** One CSV line: the cells joined with ',' and no quoting, then a newline. */
  function CsvLine(cells: seq<string>): string {
    Join(',', cells) + "\n"
  }

  /** The text so far followed by one line per record of the dataset, in order. */
  function CsvBody(head: string, dataset: seq<Record>, ks: seq<Field>): string {
    if |dataset| == 0 then head
    else CsvBody(head, dataset[..|dataset| - 1], ks) + CsvLine(Cells(dataset[|dataset| - 1], ks))
  }

  /** The header the CSV uses for a dataset. */
  function Header(dataset: seq<Record>): seq<Field> {
    SortedKeys(KeyUnion(dataset))
  }

  /** The CSV text built for a dataset: the header line, then the rows. */
  function CsvText(dataset: seq<Record>): string {
    CsvBody(CsvLine(Names(Header(dataset))), dataset, Header(dataset))
  }

  /** The key-collecting loop of the CSV rendering: `all_keys.update(item.keys())` for each record. */
  method CollectKeys(dataset: seq<Record>) returns (allKeys: set<Field>)
    ensures allKeys == KeyUnion(dataset)
  {
    allKeys := {};
    for i := 0 to |dataset|
      invariant allKeys == KeyUnion(dataset[..i])
    {
      assert dataset[..i + 1][..i] == dataset[..i];
      allKeys := allKeys + dataset[i].Keys;
    }
    assert dataset[..|dataset|] == dataset;
  }

  /**
   * The CSV rendering of `main`: collect every key, sort them, write the
   * header line and then one line per record.
   */
  method ToCsv(dataset: seq<Record>) returns (csv: string)
    ensures csv == CsvText(dataset)
  {
    var allKeys := CollectKeys(dataset);
    var orderedKeys := SortedKeys(allKeys);
    csv := CsvLine(Names(orderedKeys));
    for i := 0 to |dataset|
      invariant csv == CsvBody(CsvLine(Names(orderedKeys)), dataset[..i], orderedKeys)
    {
      assert dataset[..i + 1][..i] == dataset[..i];
      csv := csv + CsvLine(Cells(dataset[i], orderedKeys));
    }
    assert dataset[..|dataset|] == dataset;
  }

  // ---------------------------------------------------------------------
  // Reading the CSV back
  // ---------------------------------------------------------------------

  /** A cell that needs no quoting: no ',' and no newline. */
  predicate Plain(s: string) {
    ',' !in s && '\n' !in s
  }

  /** Every cell of every row is plain. */
  predicate PlainRows(dataset: seq<Record>, ks: seq<Field>) {
    forall i, k :: 0 <= i < |dataset| && 0 <= k < |ks| ==> Plain(Render(Get(dataset[i], ks[k], Str(""))))
  }

  /** Each record's row, without its newline. */
  function Rows(dataset: seq<Record>, ks: seq<Field>): (rows: seq<string>)
    ensures |rows| == |dataset|
    ensures forall i :: 0 <= i < |dataset| ==> rows[i] == Join(',', Cells(dataset[i], ks))
  {
    if |dataset| == 0 then []
    else Rows(dataset[..|dataset| - 1], ks) + [Join(',', Cells(dataset[|dataset| - 1], ks))]
  }

  /** The lines of the CSV: the header, then one row per record. */
  function CsvLines(dataset: seq<Record>, ks: seq<Field>): (lines: seq<string>)
    ensures |lines| == |dataset| + 1
  {
    [Join(',', Names(ks))] + Rows(dataset, ks)
  }

  /** The header line and the rows are the newline-joined lines, with an empty last line. */
  lemma {:induction false} BodyAsJoin(dataset: seq<Record>, ks: seq<Field>, head: string)
    ensures CsvBody(head + "\n", dataset, ks) == Join('\n', [head] + Rows(dataset, ks) + [""])
  {
    if |dataset| == 0 {
      assert [head] + Rows(dataset, ks) + [""] == [head, ""];
    } else {
      var init := dataset[..|dataset| - 1];
      var last := Join(',', Cells(dataset[|dataset| - 1], ks));
      BodyAsJoin(init, ks, head);
      var parts := [head] + Rows(init, ks);
      JoinAppend('\n', parts, last);
      assert [head] + Rows(dataset, ks) + [""] == parts + [last, ""];
    }
  }

  /** Joining parts + [x, ""] is joining parts + [""] followed by x and a separator. */
  lemma {:induction false} JoinAppend(sep: char, parts: seq<string>, x: string)
    requires |parts| >= 1
    ensures Join(sep, parts + [x, ""]) == Join(sep, parts + [""]) + (x + [sep])
    decreases |parts|
  {
    if |parts| == 1 {
      assert (parts + [x, ""])[1..] == [x, ""];
      assert (parts + [""])[1..] == [""];
    } else {
      JoinAppend(sep, parts[1..], x);
      assert (parts + [x, ""])[1..] == parts[1..] + [x, ""];
      assert (parts + [""])[1..] == parts[1..] + [""];
      AppendAssociative(parts[0] + [sep], Join(sep, parts[1..] + [""]), x + [sep]);
    }
  }

  /** A solver hint: names the regrouping `JoinAppend` needs (its body is empty on purpose). */
  lemma AppendAssociative(a: string, b: string, c: string)
    ensures a + b + c == a + (b + c)
  {
  }

  /**
   * When every cell is plain, the CSV text splits on newlines into the
   * header line, one line per record in order, and the empty string after
   * the final newline.
   */
  lemma CsvLineStructure(dataset: seq<Record>)
    requires PlainRows(dataset, Header(dataset))
    ensures Split(CsvText(dataset), '\n') == CsvLines(dataset, Header(dataset)) + [""]
  {
    var ks := Header(dataset);
    var head := Join(',', Names(ks));
    BodyAsJoin(dataset, ks, head);
    var lines := CsvLines(dataset, ks) + [""];
    assert CsvText(dataset) == Join('\n', lines);
    forall i | 0 <= i < |lines|
      ensures '\n' !in lines[i]
    {
      if i == 0 {
        forall k | 0 <= k < |ks| ensures '\n' !in Names(ks)[k] {
          NameKeyChars(ks[k]);
        }
        JoinNoSep(',', '\n', Names(ks));
      } else if i <= |dataset| {
        var cells := Cells(dataset[i - 1], ks);
        forall k | 0 <= k < |cells| ensures '\n' !in cells[k] {
          assert Plain(Render(Get(dataset[i - 1], ks[k], Str(""))));
        }
        JoinNoSep(',', '\n', cells);
      }
    }
    SplitJoin(lines, '\n');
  }

  /** The header line splits on ',' into the sorted key strings. */
  lemma HeaderFields(ks: seq<Field>)
    requires |ks| >= 1
    ensures Split(Join(',', Names(ks)), ',') == Names(ks)
  {
    forall k | 0 <= k < |ks| ensures ',' !in Names(ks)[k] {
      NameKeyChars(ks[k]);
    }
    SplitJoin(Names(ks), ',');
  }

  /**
   * A row with plain cells splits on ',' into one field per header key:
   * the k-th is the record's value for the k-th key, or '' when it lacks it.
   */
  lemma RowFields(item: Record, ks: seq<Field>)
    requires |ks| >= 1
    requires forall k :: 0 <= k < |ks| ==> Plain(Render(Get(item, ks[k], Str(""))))
    ensures var fields := Split(Join(',', Cells(item, ks)), ',');
      && |fields| == |ks|
      && forall k :: 0 <= k < |ks| ==> fields[k] == (if ks[k] in item then Render(item[ks[k]]) else "")
  {
    SplitJoin(Cells(item, ks), ',');
  }

  /**
   * The CSV quotes nothing: a list value, as content records carry in
   * `tags`, renders with ", " and would shift the columns after it.
   */
  lemma ListCellIsNotPlain()
    ensures !Plain(Render(StrList(["trending", "popular"])))
  {
    var s := Render(StrList(["trending", "popular"]));
    assert s == "['trending', 'popular']";
    assert s[11] == ',';
  }
}
