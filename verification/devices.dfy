/** `list_devices`: reading the ready devices out of `adb devices`. */
module Devices {
  import opened Results
  import opened Text
  import opened Gateway
  import opened Sequences

  /** The device-listing invocation. */
  const ListCommand: seq<string> := ["adb", "devices"]

  /** `line.strip().split()`: the whitespace-separated fields of a line, which
      together hold exactly its non-whitespace characters, in order. */
  function Fields(line: string): (parts: seq<string>)
    ensures forall i :: 0 <= i < |parts| ==> IsWord(parts[i])
    ensures Concat(parts) == NonSpace(line)
  {
    NonSpaceOfStrip(line);
    Tokens(Strip(line))
  }

  /** The fields of every line, in order. */
  function FieldRows(lines: seq<string>): (rows: seq<seq<string>>)
    ensures |rows| == |lines|
    ensures forall i :: 0 <= i < |lines| ==> rows[i] == Fields(lines[i])
  {
    seq(|lines|, i requires 0 <= i < |lines| => Fields(lines[i]))
  }

  /** A listing row names a ready device when its second field is exactly
      `device` (not `unauthorized`, `offline`, ...); blank rows have no fields. */
  predicate IsReady(row: seq<string>) {
    |row| >= 2 && row[1] == "device"
  }

  /** The first field of every ready row, in row order. */
  function ReadySerials(rows: seq<seq<string>>): (serials: seq<string>)
    ensures |serials| <= |rows|
    ensures (forall i :: 0 <= i < |rows| ==> !IsReady(rows[i])) ==> serials == []
  {
    if |rows| == 0 then []
    else (if IsReady(rows[0]) then [rows[0][0]] else []) + ReadySerials(rows[1..])
  }

  /** Python's `xs[1:]`: everything after the first element, `[]` for `[]`. */
  function DropFirst<T>(xs: seq<T>): (r: seq<T>)
    ensures |r| == if |xs| == 0 then 0 else |xs| - 1
  {
    if |xs| == 0 then [] else xs[1..]
  }

  /** The serials listed in `adb devices` output: the header line is skipped. */
  function ParseDeviceList(stdout: string): (serials: seq<string>)
    ensures |serials| <= |DropFirst(SplitLines(stdout))|
    ensures |SplitLines(stdout)| <= 1 ==> serials == []
  {
    ReadySerials(FieldRows(DropFirst(SplitLines(stdout))))
  }

  /** `list_devices` given the finished `adb devices` process. */
  function ListDevices(listing: ProcessResult): (r: Result<seq<string>, Error>)
    ensures r.Failure? <==> listing.status != 0
    ensures r.Failure? ==> r.error == DeviceQueryFailed(Strip(listing.stderr))
    ensures r.Success? ==> r.value == ParseDeviceList(listing.stdout)
  {
    if listing.status != 0 then Failure(DeviceQueryFailed(Strip(listing.stderr)))
    else Success(ParseDeviceList(listing.stdout))
  }

  // ---------------------------------------------------------------------------
  // Properties of the filter
  // ---------------------------------------------------------------------------

  /** The filter distributes over concatenation of listings. */
  lemma {:induction false} ReadySerialsAppend(a: seq<seq<string>>, b: seq<seq<string>>)
    ensures ReadySerials(a + b) == ReadySerials(a) + ReadySerials(b)
    decreases |a|
  {
    if |a| == 0 {
      assert a + b == b;
    } else {
      var head: seq<string> := if IsReady(a[0]) then [a[0][0]] else [];
      assert (a + b)[0] == a[0];
      assert (a + b)[1..] == a[1..] + b;
      assert ReadySerials(a + b) == head + ReadySerials(a[1..] + b);
      ReadySerialsAppend(a[1..], b);
      AppendAssociative(head, ReadySerials(a[1..]), ReadySerials(b));
    }
  }

  /** A row that is not ready contributes nothing, wherever it appears. */
  lemma NotReadyIgnored(before: seq<seq<string>>, row: seq<string>, after: seq<seq<string>>)
    requires !IsReady(row)
    ensures ReadySerials(before + [row] + after) == ReadySerials(before + after)
  {
    ReadySerialsAppend(before + [row], after);
    ReadySerialsAppend(before, [row]);
    ReadySerialsAppend(before, after);
  }

  /** A serial is reported exactly when some ready row names it. */
  lemma {:induction false} ReadySerialsMember(rows: seq<seq<string>>, serial: string)
    ensures serial in ReadySerials(rows)
        <==> exists i :: 0 <= i < |rows| && IsReady(rows[i]) && rows[i][0] == serial
    decreases |rows|
  {
    if |rows| > 0 {
      var rest := rows[1..];
      ReadySerialsMember(rest, serial);
      if serial in ReadySerials(rest) {
        var i :| 0 <= i < |rest| && IsReady(rest[i]) && rest[i][0] == serial;
        assert rows[i + 1] == rest[i];
      }
      if exists i :: 0 <= i < |rows| && IsReady(rows[i]) && rows[i][0] == serial {
        var i :| 0 <= i < |rows| && IsReady(rows[i]) && rows[i][0] == serial;
        if i > 0 {
          assert rest[i - 1] == rows[i];
        }
      }
    }
  }

  /** A line made of fields joined by whitespace splits back into exactly
      those fields, whatever whitespace surrounds it. */
  lemma FieldsOfJoin(pre: string, fields: seq<string>, sep: string, post: string)
    requires AllSpace(pre) && AllSpace(post)
    requires |sep| > 0 && AllSpace(sep)
    requires forall i :: 0 <= i < |fields| ==> IsWord(fields[i])
    ensures Fields(pre + JoinWords(fields, sep) + post) == fields
  {
    var line := JoinWords(fields, sep);
    FieldsAreTokens(pre + line + post);
    AppendAssociative(pre, line, post);
    TokensSpacePrefix(pre, line + post);
    TokensSpaceSuffix(line, post);
    TokensOfJoin(fields, sep);
  }

  /** Stripping before splitting changes nothing. */
  lemma FieldsAreTokens(line: string)
    ensures Fields(line) == Tokens(line)
  {
    TokensOfStrip(line);
  }

  /** For a listing whose lines each end in `"\n"` or `"\r\n"`, the first line
      is skipped whatever it holds, and each later line is judged on its own. */
  lemma ParseJoinedListing(header: string, lines: seq<string>, t: string)
    requires t == "\n" || t == "\r\n"
    requires NoLineBreak(header)
    requires forall i :: 0 <= i < |lines| ==> NoLineBreak(lines[i])
    ensures ParseDeviceList(JoinLines([header] + lines, t)) == ReadySerials(FieldRows(lines))
  {
    var all := [header] + lines;
    forall i | 0 <= i < |all|
      ensures NoLineBreak(all[i])
    {
      if i > 0 {
        assert all[i] == lines[i - 1];
      }
    }
    SplitLinesOfJoin(all, t);
    assert DropFirst(all) == lines;
  }

  /** Only a header line: no devices. */
  lemma HeaderOnlyListing()
    ensures ParseDeviceList("List of devices attached\n") == []
  {
    var header := "List of devices attached";
    assert NoLineBreak(header);
    ParseJoinedListing(header, [], "\n");
    assert JoinLines([header] + [], "\n") == "List of devices attached\n";
  }

  /** A ready device and an unauthorized one, each line ending in `"\n"`:
      only the ready serial. */
  lemma MixedListing()
    ensures ParseDeviceList(JoinLines(["List of devices attached", "ABC123\tdevice\tusb", "XYZ999\tunauthorized\tusb"], "\n")) == ["ABC123"]
  {
    ExampleListingRows();
    ExampleRows();
  }

  lemma ExampleListingRows()
    ensures ParseDeviceList(JoinLines(["List of devices attached", "ABC123\tdevice\tusb", "XYZ999\tunauthorized\tusb"], "\n"))
            == ReadySerials(FieldRows(["ABC123\tdevice\tusb", "XYZ999\tunauthorized\tusb"]))
  {
    var header, ready, refused := "List of devices attached", "ABC123\tdevice\tusb", "XYZ999\tunauthorized\tusb";
    ExampleNoBreaks();
    ParseJoinedListing(header, [ready, refused], "\n");
    PrependToTwo(header, ready, refused);
  }

  lemma ExampleNoBreaks()
    ensures NoLineBreak("List of devices attached")
    ensures NoLineBreak("ABC123\tdevice\tusb")
    ensures NoLineBreak("XYZ999\tunauthorized\tusb")
  {
  }

  lemma ExampleRows()
    ensures ReadySerials(FieldRows(["ABC123\tdevice\tusb", "XYZ999\tunauthorized\tusb"])) == ["ABC123"]
  {
    ExampleFieldRows();
    ReadyThenRefused(["ABC123", "device", "usb"], ["XYZ999", "unauthorized", "usb"]);
  }

  lemma ExampleFieldRows()
    ensures FieldRows(["ABC123\tdevice\tusb", "XYZ999\tunauthorized\tusb"])
            == [["ABC123", "device", "usb"], ["XYZ999", "unauthorized", "usb"]]
  {
    FieldRowsPair("ABC123\tdevice\tusb", "XYZ999\tunauthorized\tusb");
    ReadyLineFields();
    RefusedLineFields();
  }

  lemma FieldRowsPair(a: string, b: string)
    ensures FieldRows([a, b]) == [Fields(a), Fields(b)]
  {
  }

  lemma ReadyThenRefused(ready: seq<string>, refused: seq<string>)
    requires IsReady(ready) && !IsReady(refused)
    ensures ReadySerials([ready, refused]) == [ready[0]]
  {
    assert [ready, refused][1..] == [refused];
    assert [refused][1..] == [];
  }

  lemma ReadyLineFields()
    ensures Fields("ABC123\tdevice\tusb") == ["ABC123", "device", "usb"]
  {
    ExampleWords();
    ExampleJoins();
    FieldsOfJoin("", ["ABC123", "device", "usb"], "\t", "");
    assert "" + "ABC123\tdevice\tusb" + "" == "ABC123\tdevice\tusb";
  }

  lemma RefusedLineFields()
    ensures Fields("XYZ999\tunauthorized\tusb") == ["XYZ999", "unauthorized", "usb"]
  {
    ExampleWords();
    ExampleJoins();
    FieldsOfJoin("", ["XYZ999", "unauthorized", "usb"], "\t", "");
    assert "" + "XYZ999\tunauthorized\tusb" + "" == "XYZ999\tunauthorized\tusb";
  }

  lemma ExampleWords()
    ensures AllSpace("\t")
    ensures forall i :: 0 <= i < 3 ==> IsWord(["ABC123", "device", "usb"][i])
    ensures forall i :: 0 <= i < 3 ==> IsWord(["XYZ999", "unauthorized", "usb"][i])
  {
    assert IsWord("ABC123") && IsWord("device") && IsWord("usb");
    assert IsWord("XYZ999") && IsWord("unauthorized");
  }

  lemma ExampleJoins()
    ensures JoinWords(["ABC123", "device", "usb"], "\t") == "ABC123\tdevice\tusb"
    ensures JoinWords(["XYZ999", "unauthorized", "usb"], "\t") == "XYZ999\tunauthorized\tusb"
  {
    JoinThree("ABC123", "device", "usb", "\t");
    JoinThree("XYZ999", "unauthorized", "usb", "\t");
  }

  lemma JoinThree(a: string, b: string, c: string, sep: string)
    ensures JoinWords([a, b, c], sep) == a + sep + b + sep + c
  {
    assert [a, b, c][1..] == [b, c];
    assert [b, c][1..] == [c];
    calc {
      JoinWords([a, b, c], sep);
      a + sep + JoinWords([b, c], sep);
      a + sep + (b + sep + JoinWords([c], sep));
      a + sep + (b + sep + c);
      a + sep + b + sep + c;
    }
  }
}
