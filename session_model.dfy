/**
 * The Instrumentor's behaviour as a state machine over values: the files
 * the output stream writes to, the current session and the path of the
 * open stream. The class in module Instrumentation is proved against
 * these step functions.
 */
module SessionModel {
  import opened Wrappers
  import opened TraceFormat

  /** The default output path of BeginSession. */
  const DefaultPath: string := "results.json"

  datatype InstrumentationSession = InstrumentationSession(name: string)

  /**
   * `files` is the file system the stream writes to; `session` is the
   * current session (nullptr as None); `stream` is the path the
   * output stream has open, if any.
   */
  datatype State = State(files: map<string, string>, session: Option<InstrumentationSession>, stream: Option<string>)

  /** A session is open exactly when the stream is, and its file exists. */
  predicate Valid(s: State) {
    && s.session.Some? == s.stream.Some?
    && (s.stream.Some? ==> s.stream.value in s.files)
  }

  /** The state before any session: nothing open, the files as they are. */
  function Initial(files: map<string, string>): (s: State)
    ensures Valid(s) && s.session.None?
  {
    State(files, None, None)
  }

  /**
   * `m_OutputStream << text`: the open file grows by exactly `text`; no
   * other file, the session and the stream stay as they were.
   */
  function Append(s: State, text: string): (r: State)
    requires Valid(s) && s.stream.Some?
    ensures Valid(r) && r.session == s.session && r.stream == s.stream
    ensures r.files.Keys == s.files.Keys
    ensures r.files[s.stream.value] == s.files[s.stream.value] + text
    ensures forall p :: p in s.files && p != s.stream.value ==> r.files[p] == s.files[p]
  {
    var path := s.stream.value;
    s.(files := s.files[path := s.files[path] + text])
  }

  /** With a session open: write the footer, close the stream, clear the session. */
  function InternalEndSession(s: State): (r: State)
    requires Valid(s)
    ensures Valid(r) && r.session.None? && r.stream.None?
    ensures r.files.Keys == s.files.Keys
    ensures s.session.None? ==> r == s
    ensures s.session.Some? ==>
      var path := s.stream.value;
      r.files == s.files[path := s.files[path] + Footer]
  {
    if s.session.Some? then
      var ended := Append(s, Footer);
      ended.(session := None, stream := None)
    else
      s
  }

  /** Ends the current session if there is one; otherwise changes nothing. */
  function EndSession(s: State): (r: State)
    requires Valid(s)
    ensures Valid(r) && r.session.None? && r.stream.None? && r.files.Keys == s.files.Keys
    ensures s.session.None? ==> r == s
    ensures s.session.Some? ==>
      var path := s.stream.value;
      r.files == s.files[path := s.files[path] + Footer]
  {
    InternalEndSession(s)
  }

  /**
   * Ends any open session, then opens (truncating) `path`; `openOk` says
   * whether the open succeeded. On success the header is written and a
   * session named `name` is current.
   */
  function BeginSession(s: State, name: string, path: string, openOk: bool): (r: State)
    requires Valid(s)
    ensures Valid(r)
    ensures r.session.Some? <==> openOk
    ensures openOk ==> r.session == Some(InstrumentationSession(name)) && r.stream == Some(path)
    ensures openOk ==> r.files[path] == Header
    ensures openOk ==> r.files.Keys == InternalEndSession(s).files.Keys + {path}
    ensures forall p :: p in InternalEndSession(s).files && p != path ==> p in r.files && r.files[p] == InternalEndSession(s).files[p]
    ensures !openOk ==> r == InternalEndSession(s)
  {
    var ended := InternalEndSession(s);
    if openOk then
      var truncated := State(ended.files[path := []], None, Some(path));
      var begun := truncated.(session := Some(InstrumentationSession(name)));
      Append(begun, Header)
    else
      ended
  }

  /** Appends the result's fragment if a session is open; otherwise drops it. */
  function WriteProfile(s: State, result: ProfileResult): (r: State)
    requires Valid(s)
    ensures Valid(r)
    ensures r.session == s.session && r.stream == s.stream && r.files.Keys == s.files.Keys
    ensures s.session.None? ==> r == s
    ensures s.session.Some? ==>
      var path := s.stream.value;
      && r.files[path] == s.files[path] + Fragment(result)
      && forall p :: p in s.files && p != path ==> r.files[p] == s.files[p]
  {
    if s.session.Some? then Append(s, Fragment(result)) else s
  }

  /** Several WriteProfile calls in order. */
  function WriteAll(s: State, rs: seq<ProfileResult>): (r: State)
    requires Valid(s)
    ensures Valid(r) && r.files.Keys == s.files.Keys
    decreases |rs|
  {
    if rs == [] then s else WriteAll(WriteProfile(s, rs[0]), rs[1..])
  }

  // ---------------------------------------------------------------------
  // Properties of the session lifecycle

  /** Ending twice is ending once. */
  lemma EndSessionIdempotent(s: State)
    requires Valid(s)
    ensures EndSession(EndSession(s)) == EndSession(s)
  {
  }

  /** Writes never open or close a session; with none open they change nothing. */
  lemma {:induction false} WriteAllKeepsSession(s: State, rs: seq<ProfileResult>)
    requires Valid(s)
    ensures WriteAll(s, rs).session == s.session && WriteAll(s, rs).stream == s.stream
    ensures s.session.None? ==> WriteAll(s, rs) == s
    decreases |rs|
  {
    if rs != [] {
      WriteAllKeepsSession(WriteProfile(s, rs[0]), rs[1..]);
    }
  }

  /**
   * While a session is open, writes append their fragments to its file in
   * call order and leave every other file as it was.
   */
  lemma {:induction false} WriteAllAppends(s: State, rs: seq<ProfileResult>)
    requires Valid(s) && s.stream.Some?
    ensures WriteAll(s, rs).files[s.stream.value] == s.files[s.stream.value] + Events(rs)
    ensures forall p :: p in s.files && p != s.stream.value ==> WriteAll(s, rs).files[p] == s.files[p]
    decreases |rs|
  {
    var path := s.stream.value;
    if rs == [] {
      assert s.files[path] + Events(rs) == s.files[path];
    } else {
      var s1 := WriteProfile(s, rs[0]);
      assert s1.stream == s.stream;
      WriteAllAppends(s1, rs[1..]);
      AppendAssociative(s.files[path], Fragment(rs[0]), Events(rs[1..]));
    }
  }

  /** The whole session as one call sequence: begin, N writes, end. */
  function Session(s: State, name: string, path: string, rs: seq<ProfileResult>): State
    requires Valid(s)
  {
    EndSession(WriteAll(BeginSession(s, name, path, true), rs))
  }

  /**
   * A session that opens its file successfully leaves that file holding
   * the header, the N fragments in call order and the footer, which read
   * back as exactly N events after the sentinel; no session remains open.
   */
  lemma SessionDocument(s: State, name: string, path: string, rs: seq<ProfileResult>)
    requires Valid(s)
    ensures Session(s, name, path, rs).session.None?
    ensures Session(s, name, path, rs).files[path] == Document(rs)
    ensures ParseDocument(Session(s, name, path, rs).files[path]) == Some(WrittenAll(rs))
  {
    var begun := BeginSession(s, name, path, true);
    WriteAllKeepsSession(begun, rs);
    WriteAllAppends(begun, rs);
    DocumentRoundTrip(rs);
  }

  /**
   * Beginning a second session while one is open finishes the first file
   * with its footer before the second file is opened, and later writes go
   * to the second file only.
   */
  lemma SecondBeginClosesFirst(s: State, a: string, pathA: string, ra: seq<ProfileResult>,
                               b: string, pathB: string, rb: seq<ProfileResult>)
    requires Valid(s) && pathA != pathB
    ensures
      var first := WriteAll(BeginSession(s, a, pathA, true), ra);
      var last := EndSession(WriteAll(BeginSession(first, b, pathB, true), rb));
      && last.files[pathA] == Document(ra)
      && last.files[pathB] == Document(rb)
  {
    var begunA := BeginSession(s, a, pathA, true);
    WriteAllKeepsSession(begunA, ra);
    WriteAllAppends(begunA, ra);
    var first := WriteAll(begunA, ra);
    var begunB := BeginSession(first, b, pathB, true);
    assert begunB.files[pathA] == Document(ra);
    WriteAllKeepsSession(begunB, rb);
    WriteAllAppends(begunB, rb);
  }

  /** A failed open after an open session still closes that session, and nothing is open. */
  lemma FailedBeginEndsSession(s: State, name: string, path: string)
    requires Valid(s) && s.session.Some?
    ensures BeginSession(s, name, path, false).session.None?
    ensures
      var old_path := s.stream.value;
      BeginSession(s, name, path, false).files[old_path] == s.files[old_path] + Footer
  {
  }
}
