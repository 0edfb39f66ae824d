/**
 * FileInfo: the contents of a downloaded file and the HTTP headers that came
 * with it, kept in the order they arrived, duplicates included.
 */
module FileInfos {
  import opened Failures

  /** One HTTP header as received. */
  datatype FileHeader = FileHeader(name: string, value: string)

  /** The bytes the contents stream yields. */
  type Contents = seq<bv8>

  datatype FileInfo = FileInfo(contents: Contents, headers: seq<FileHeader>)
  {
    /** getContents: the stream the builder was given; with the headers it builds this FileInfo again. */
    function GetContents(): (r: Contents)
      ensures NewBuilder(Some(r)).SetHeaders(Some(headers)).Build() == Ok(this)
    {
      contents
    }

    /** getHeaders: the list the builder was given, order and duplicates untouched. */
    function GetHeaders(): (r: seq<FileHeader>)
      ensures NewBuilder(Some(contents)).SetHeaders(Some(r)).Build() == Ok(this)
    {
      headers
    }

    /** getFirstHeaderWithName: the value of the earliest header named name, or null. */
    function GetFirstHeaderWithName(name: string): (r: Option<string>)
      ensures r.None? <==> forall i :: 0 <= i < |headers| ==> headers[i].name != name
      ensures r.Some? ==>
                exists k :: 0 <= k < |headers| && headers[k].name == name && headers[k].value == r.value
                            && forall i :: 0 <= i < k ==> headers[i].name != name
    {
      FirstHeaderWithNameIsEarliest(headers, name);
      FirstHeaderWithName(headers, name)
    }
  }

  /** The value of the first header in hs whose name is name; None when no header has that name. */
  function FirstHeaderWithName(hs: seq<FileHeader>, name: string): (r: Option<string>)
    ensures r.None? <==> forall i :: 0 <= i < |hs| ==> hs[i].name != name
    ensures r.Some? ==> exists i :: 0 <= i < |hs| && hs[i].name == name && hs[i].value == r.value
  {
    if hs == [] then None
    else if hs[0].name == name then Some(hs[0].value)
    else FirstHeaderWithName(hs[1..], name)
  }

  /** The lookup finds a value exactly at the earliest index whose header has the name. */
  lemma {:induction false} FirstHeaderWithNameIsEarliest(hs: seq<FileHeader>, name: string)
    ensures FirstHeaderWithName(hs, name).None? <==> forall i :: 0 <= i < |hs| ==> hs[i].name != name
    ensures FirstHeaderWithName(hs, name).Some? ==>
              exists k :: 0 <= k < |hs| && hs[k].name == name && hs[k].value == FirstHeaderWithName(hs, name).value
                          && forall i :: 0 <= i < k ==> hs[i].name != name
  {
    if hs != [] && hs[0].name != name {
      FirstHeaderWithNameIsEarliest(hs[1..], name);
      var r := FirstHeaderWithName(hs[1..], name);
      if r.Some? {
        var k :| 0 <= k < |hs[1..]| && hs[1..][k].name == name && hs[1..][k].value == r.value
                 && forall i :: 0 <= i < k ==> hs[1..][i].name != name;
        assert hs[k + 1] == hs[1..][k];
        assert forall i :: 0 < i < k + 1 ==> hs[i] == hs[1..][i - 1];
      } else {
        assert forall i :: 0 < i < |hs| ==> hs[i] == hs[1..][i - 1];
      }
    } else if hs != [] {
      assert 0 < |hs| && hs[0].name == name;
    }
  }

  /** Conversely, when k is the earliest index with the name, the lookup yields the value at k. */
  lemma FirstHeaderAt(hs: seq<FileHeader>, name: string, k: nat)
    requires k < |hs| && hs[k].name == name
    requires forall i :: 0 <= i < k ==> hs[i].name != name
    ensures FirstHeaderWithName(hs, name) == Some(hs[k].value)
  {
    FirstHeaderWithNameIsEarliest(hs, name);
    var r := FirstHeaderWithName(hs, name);
    var j :| 0 <= j < |hs| && hs[j].name == name && hs[j].value == r.value
             && forall i :: 0 <= i < j ==> hs[i].name != name;
    assert j == k;
  }

  /**
   * FileInfo.Builder: the contents stream from the constructor (null is
   * None) and the headers, an empty list until setHeaders.
   */
  datatype Builder = Builder(contents: Option<Contents>, headers: Option<seq<FileHeader>>)
  {
    /** setHeaders: replaces the headers and nothing else. */
    function SetHeaders(hs: Option<seq<FileHeader>>): (b: Builder)
      ensures b.contents == contents && b.headers == hs
    {
      this.(headers := hs)
    }

    /** build: null contents or null headers fail at once with a NullPointerException. */
    function Build(): (r: Result<FileInfo>)
      ensures r.Ok? <==> contents.Some? && headers.Some?
      ensures r.Ok? ==> r.value.contents == contents.value && r.value.headers == headers.value
      ensures r.Err? ==> r.error.NullPointerException?
    {
      if contents.None? then Err(NullPointerException("contents"))
      else if headers.None? then Err(NullPointerException("headers"))
      else Ok(FileInfo(contents.value, headers.value))
    }
  }

  /** new FileInfo.Builder(contents): no headers yet. */
  function NewBuilder(contents: Option<Contents>): (b: Builder)
    ensures b.contents == contents && b.headers == Some([])
  {
    Builder(contents, Some([]))
  }

  // ---------------------------------------------------------------------------
  // The cases of FileInfoTest

  /** testBuilder: one header is found by its name, and the contents come back as given. */
  lemma SingleHeaderCase(contents: Contents, name: string, value: string)
    ensures var r := NewBuilder(Some(contents)).SetHeaders(Some([FileHeader(name, value)])).Build();
            && r.Ok?
            && r.value.GetFirstHeaderWithName(name) == Some(value)
            && r.value.GetContents() == contents
  {
    FirstHeaderAt([FileHeader(name, value)], name, 0);
  }

  /** testNullContent and testNullHeaders. */
  lemma NullCases(contents: Contents)
    ensures NewBuilder(None).Build().Err? && NewBuilder(None).Build().error.NullPointerException?
    ensures var r := NewBuilder(Some(contents)).SetHeaders(None).Build();
            r.Err? && r.error.NullPointerException?
  {
  }

  /**
   * testDuplicateHeaders: with two headers of one name the earlier wins, a
   * name between them is found, an unknown name gives null, and the list
   * comes back unchanged.
   */
  lemma DuplicateHeadersCase(contents: Contents, n1: string, v1: string, n2: string, v2: string, v3: string, unknown: string)
    requires n1 != n2 && unknown != n1 && unknown != n2
    ensures var hs := [FileHeader(n1, v1), FileHeader(n2, v2), FileHeader(n1, v3)];
            var r := NewBuilder(Some(contents)).SetHeaders(Some(hs)).Build();
            && r.Ok?
            && r.value.GetFirstHeaderWithName(n1) == Some(v1)
            && r.value.GetFirstHeaderWithName(n2) == Some(v2)
            && r.value.GetFirstHeaderWithName(unknown) == None
            && r.value.GetHeaders() == hs
  {
    var hs := [FileHeader(n1, v1), FileHeader(n2, v2), FileHeader(n1, v3)];
    FirstHeaderAt(hs, n1, 0);
    FirstHeaderAt(hs, n2, 1);
    FirstHeaderWithNameIsEarliest(hs, unknown);
  }

  // ---------------------------------------------------------------------------
  // The same cases on the strings FileInfoTest uses

  /** The bytes of "golden". */
  const GOLDEN: Contents := [0x67, 0x6F, 0x6C, 0x64, 0x65, 0x6E]

  /** testBuilder on "golden" with the header some-header: some-value. */
  lemma BuilderExample()
    ensures var r := NewBuilder(Some(GOLDEN)).SetHeaders(Some([FileHeader("some-header", "some-value")])).Build();
            && r.Ok?
            && r.value.GetFirstHeaderWithName("some-header") == Some("some-value")
            && r.value.GetContents() == GOLDEN
  {
    SingleHeaderCase(GOLDEN, "some-header", "some-value");
  }

  /** testNullContent and testNullHeaders on "golden". */
  lemma NullExamples()
    ensures NewBuilder(None).Build().Err? && NewBuilder(None).Build().error.NullPointerException?
    ensures var r := NewBuilder(Some(GOLDEN)).SetHeaders(None).Build();
            r.Err? && r.error.NullPointerException?
  {
    NullCases(GOLDEN);
  }

  /** testDuplicateHeaders with the test's names and values. */
  lemma DuplicateHeadersExample()
    ensures var hs := [FileHeader("some-header", "some-value"),
                       FileHeader("different-header", "different-other-value"),
                       FileHeader("some-header", "some-other-value")];
            var r := NewBuilder(Some(GOLDEN)).SetHeaders(Some(hs)).Build();
            && r.Ok?
            && r.value.GetFirstHeaderWithName("some-header") == Some("some-value")
            && r.value.GetFirstHeaderWithName("different-header") == Some("different-other-value")
            && r.value.GetFirstHeaderWithName("unknown-header") == None
            && r.value.GetHeaders() == hs
  {
    assert "some-header" != "different-header" by {
      assert "some-header"[0] != "different-header"[0];
    }
    assert "unknown-header" != "some-header" && "unknown-header" != "different-header" by {
      assert "unknown-header"[0] != "some-header"[0];
      assert "unknown-header"[0] != "different-header"[0];
    }
    DuplicateHeadersCase(GOLDEN, "some-header", "some-value", "different-header", "different-other-value",
                         "some-other-value", "unknown-header");
  }
}
