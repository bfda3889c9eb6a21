/**
 * File downloads through the shared HTTP client: the request that is sent,
 * the file name taken from the argument or from the `Content-Disposition`
 * header, and the container check for the temporary link.
 */
module DownloadFile {
  import opened Common

  datatype DownloadMethod = DownloadGet | DownloadPost

  datatype DownloadArgs = DownloadArgs(
    url: string,
    searchParams: Option<Query>,
    data: Option<Record>,
    verb: Option<DownloadMethod>,
    urlContainerId: Option<string>,
    fileNameArg: Option<string>)

  /** The request handed to the HTTP client. */
  datatype DownloadRequest = DownloadRequest(verb: Verb, url: string, searchParams: Option<Query>, json: Option<Record>)

  /** The method defaults to GET. */
  function EffectiveMethod(args: DownloadArgs): DownloadMethod {
    if args.verb.Some? then args.verb.value else DownloadGet
  }

  /** As written: a POST sends the search parameters and the data; a GET sends the bare URL. */
  function RequestFor(args: DownloadArgs): (r: DownloadRequest)
    ensures EffectiveMethod(args) == DownloadPost ==> r == DownloadRequest(Post, args.url, args.searchParams, args.data)
    ensures EffectiveMethod(args) == DownloadGet ==> r == DownloadRequest(Get, args.url, None, None)
  {
    if EffectiveMethod(args) == DownloadPost then DownloadRequest(Post, args.url, args.searchParams, args.data)
    else DownloadRequest(Get, args.url, None, None)
  }

  /** As evidently intended: a GET forwards the search parameters as well. */
  function IntendedRequestFor(args: DownloadArgs): (r: DownloadRequest)
    ensures r.verb == (if EffectiveMethod(args) == DownloadPost then Post else Get)
    ensures r.url == args.url && r.searchParams == args.searchParams
    ensures r.json == (if EffectiveMethod(args) == DownloadPost then args.data else None)
  {
    if EffectiveMethod(args) == DownloadPost then DownloadRequest(Post, args.url, args.searchParams, args.data)
    else DownloadRequest(Get, args.url, args.searchParams, None)
  }

  /** The two differ exactly on a GET that was given search parameters. */
  lemma IntendedDiffersOnlyOnGetWithParams(args: DownloadArgs)
    ensures RequestFor(args) != IntendedRequestFor(args)
            <==> EffectiveMethod(args) == DownloadGet && args.searchParams.Some?
  {
  }

  // ------------------------------------------------------------------
  // File name: /filename[^;=\n]*=((['"]).*?\2|[^;\n]*)/, group 1, quotes removed.

  const FilenameWord := "filename"

  /** `[^;=\n]*` from `i`: the first index holding `;`, `=` or a line feed, or the end. */
  function ScanNameTail(s: string, i: nat): (j: nat)
    requires i <= |s|
    ensures i <= j <= |s|
    ensures forall k :: i <= k < j ==> s[k] != ';' && s[k] != '=' && s[k] != '\n'
    ensures j < |s| ==> s[j] == ';' || s[j] == '=' || s[j] == '\n'
    decreases |s| - i
  {
    if i == |s| || s[i] == ';' || s[i] == '=' || s[i] == '\n' then i else ScanNameTail(s, i + 1)
  }

  /** `.*?\2` from `i`: the index of the first closing quote `q`, unless a line terminator or the end comes first. */
  function ScanClosingQuote(s: string, q: char, i: nat): (r: Option<nat>)
    requires i <= |s|
    ensures r.Some? ==> i <= r.value < |s| && s[r.value] == q
                        && forall k :: i <= k < r.value ==> s[k] != q && !IsLineTerminator(s[k])
    decreases |s| - i
  {
    if i == |s| then None
    else if s[i] == q then Some(i)
    else if IsLineTerminator(s[i]) then None
    else ScanClosingQuote(s, q, i + 1)
  }

  /** `[^;\n]*` from `i`: the first index holding `;` or a line feed, or the end. */
  function ScanUnquoted(s: string, i: nat): (j: nat)
    requires i <= |s|
    ensures i <= j <= |s|
    ensures forall k :: i <= k < j ==> s[k] != ';' && s[k] != '\n'
    ensures j < |s| ==> s[j] == ';' || s[j] == '\n'
    decreases |s| - i
  {
    if i == |s| || s[i] == ';' || s[i] == '\n' then i else ScanUnquoted(s, i + 1)
  }

  /** Group 1 of a match whose `filename` starts at `i`, if the pattern matches from there. */
  function MatchAt(s: string, i: nat): Option<string>
    requires i + |FilenameWord| <= |s|
  {
    var eq := ScanNameTail(s, i + |FilenameWord|);
    if eq == |s| || s[eq] != '=' then None
    else
      var v := eq + 1;
      if v < |s| && (s[v] == '"' || s[v] == '\'') && ScanClosingQuote(s, s[v], v + 1).Some? then
        Some(s[v..ScanClosingQuote(s, s[v], v + 1).value + 1])
      else
        Some(s[v..ScanUnquoted(s, v)])
  }

  /** The word `filename` starts at `k`. */
  predicate WordAt(s: string, k: nat)
    requires k + |FilenameWord| <= |s|
  {
    s[k..k + |FilenameWord|] == FilenameWord
  }

  /** The leftmost match at or after `i`. */
  function FirstMatch(s: string, i: nat): Option<string>
    decreases |s| - i
  {
    if i + |FilenameWord| > |s| then None
    else if WordAt(s, i) && MatchAt(s, i).Some? then MatchAt(s, i)
    else FirstMatch(s, i + 1)
  }

  predicate IsQuote(c: char) {
    c == '"' || c == '\''
  }

  /** `replace(/['"]/g, '')` */
  function StripQuotes(s: string): (r: string)
    ensures |r| <= |s|
    ensures forall k :: 0 <= k < |r| ==> !IsQuote(r[k])
    ensures (forall k :: 0 <= k < |s| ==> !IsQuote(s[k])) ==> r == s
  {
    if |s| == 0 then []
    else if IsQuote(s[0]) then StripQuotes(s[1..])
    else [s[0]] + StripQuotes(s[1..])
  }

  lemma {:induction false} StripQuotesAppend(a: string, b: string)
    ensures StripQuotes(a + b) == StripQuotes(a) + StripQuotes(b)
  {
    if |a| > 0 {
      assert (a + b)[0] == a[0];
      assert (a + b)[1..] == a[1..] + b;
      StripQuotesAppend(a[1..], b);
    } else {
      assert a + b == b;
    }
  }

  /** The saved file's name: the argument if given, else the header's file name, else `downloaded_file`. */
  function FileName(fileNameArg: Option<string>, contentDisposition: Option<string>): (r: string)
    ensures fileNameArg.Some? ==> r == fileNameArg.value
    ensures fileNameArg.None? && contentDisposition.None? ==> r == "downloaded_file"
    ensures fileNameArg.None? && contentDisposition.Some? && FirstMatch(contentDisposition.value, 0).None?
            ==> r == "downloaded_file"
    ensures fileNameArg.None? && contentDisposition.Some? && FirstMatch(contentDisposition.value, 0).Some?
            ==> forall k :: 0 <= k < |r| ==> !IsQuote(r[k])
  {
    if fileNameArg.Some? then fileNameArg.value
    else if contentDisposition.None? then "downloaded_file"
    else
      match FirstMatch(contentDisposition.value, 0)
      case None => "downloaded_file"
      case Some(group) => StripQuotes(group)
  }

  /** No `f` occurs before `j`, so no `filename` starts there and the search resumes at `j`. */
  lemma {:induction false} SkipToMatch(s: string, i: nat, j: nat)
    requires i <= j && j + |FilenameWord| <= |s|
    requires forall k :: i <= k < j ==> s[k] != 'f'
    ensures FirstMatch(s, i) == FirstMatch(s, j)
    decreases j - i
  {
    if i < j {
      assert s[i..i + |FilenameWord|][0] == s[i];
      SkipToMatch(s, i + 1, j);
    }
  }

  lemma {:induction false} ClosingQuoteAfter(s: string, q: char, i: nat, end: nat)
    requires i <= end < |s| && s[end] == q
    requires forall k :: i <= k < end ==> s[k] != q && !IsLineTerminator(s[k])
    ensures ScanClosingQuote(s, q, i) == Some(end)
    decreases end - i
  {
    if i < end {
      ClosingQuoteAfter(s, q, i + 1, end);
    }
  }

  const AttachmentHead := "attachment; "
  const QuotedFilenameKey := "filename=\""
  const AttachmentPrefix := AttachmentHead + QuotedFilenameKey

  /** `filename="` followed by a quote-free name and its closing quote matches at `i`, giving the quoted name. */
  lemma QuotedMatchAt(s: string, i: nat, name: string)
    requires i + 11 + |name| == |s|
    requires s[i..i + 10] == "filename=\"" && s[|s| - 1] == '"' && s[i + 10..|s| - 1] == name
    requires forall k :: 0 <= k < |name| ==> !IsQuote(name[k]) && !IsLineTerminator(name[k])
    ensures WordAt(s, i) && MatchAt(s, i) == Some("\"" + name + "\"")
  {
    assert s[i..i + 8] == s[i..i + 10][..8];
    assert s[i + 8] == s[i..i + 10][8] == '=';
    assert ScanNameTail(s, i + 8) == i + 8;
    assert s[i + 9] == s[i..i + 10][9] == '"';
    forall k | i + 10 <= k < |s| - 1
      ensures s[k] != '"' && !IsLineTerminator(s[k])
    {
      assert s[k] == s[i + 10..|s| - 1][k - i - 10];
    }
    ClosingQuoteAfter(s, '"', i + 10, |s| - 1);
    assert s[i + 9..|s|] == "\"" + name + "\"";
  }

  /** The usual header `attachment; filename="…"` yields the quoted name. */
  lemma QuotedAttachmentName(name: string)
    requires forall k :: 0 <= k < |name| ==> !IsQuote(name[k]) && !IsLineTerminator(name[k])
    ensures FileName(None, Some(AttachmentPrefix + name + "\"")) == name
  {
    AttachmentFirstMatch(name);
    var quote := "\"";
    assert StripQuotes(quote) == [] by {
      assert quote[1..] == [];
    }
    assert StripQuotes(name) == name;
    StripQuotesAppend(quote + name, quote);
    StripQuotesAppend(quote, name);
  }

  /** The search for `filename` skips `attachment; ` and matches the quoted name. */
  lemma AttachmentFirstMatch(name: string)
    requires forall k :: 0 <= k < |name| ==> !IsQuote(name[k]) && !IsLineTerminator(name[k])
    ensures FirstMatch(AttachmentPrefix + name + "\"", 0) == Some("\"" + name + "\"")
  {
    var s := AttachmentPrefix + name + "\"";
    assert |AttachmentHead| == 12 && |QuotedFilenameKey| == 10;
    assert s[..22] == AttachmentPrefix;
    assert AttachmentPrefix[..12] == AttachmentHead;
    assert 'f' !in AttachmentHead;
    forall k | 0 <= k < 12
      ensures s[k] != 'f'
    {
      assert s[k] == AttachmentHead[k];
    }
    SkipToMatch(s, 0, 12);
    assert AttachmentPrefix[12..] == QuotedFilenameKey;
    assert s[12..22] == QuotedFilenameKey;
    assert s[22..|s| - 1] == name;
    QuotedMatchAt(s, 12, name);
    assert FirstMatch(s, 12) == MatchAt(s, 12);
  }

  const UnquotedFilenameKey := "filename="
  const UnquotedPrefix := AttachmentHead + UnquotedFilenameKey

  /** `filename=` followed by a name without quotes, `;` or line feeds matches at `i`, up to the next `;`. */
  lemma UnquotedMatchAt(s: string, i: nat, name: string)
    requires i + 10 + |name| == |s|
    requires s[i..i + 9] == UnquotedFilenameKey && s[|s| - 1] == ';' && s[i + 9..|s| - 1] == name
    requires forall k :: 0 <= k < |name| ==> !IsQuote(name[k]) && name[k] != ';' && name[k] != '\n'
    ensures WordAt(s, i) && MatchAt(s, i) == Some(name)
  {
    assert s[i..i + 8] == s[i..i + 9][..8];
    assert s[i + 8] == s[i..i + 9][8] == '=';
    assert ScanNameTail(s, i + 8) == i + 8;
    forall k | i + 9 <= k < |s| - 1
      ensures !IsQuote(s[k]) && s[k] != ';' && s[k] != '\n'
    {
      assert s[k] == s[i + 9..|s| - 1][k - i - 9];
    }
    UnquotedEndsAtSemicolon(s, i + 9, |s| - 1);
  }

  lemma {:induction false} UnquotedEndsAtSemicolon(s: string, i: nat, end: nat)
    requires i <= end < |s| && s[end] == ';'
    requires forall k :: i <= k < end ==> s[k] != ';' && s[k] != '\n'
    ensures ScanUnquoted(s, i) == end
    decreases end - i
  {
    if i < end {
      UnquotedEndsAtSemicolon(s, i + 1, end);
    }
  }

  /** `attachment; filename=…;` without quotes yields the name up to the `;`. */
  lemma UnquotedAttachmentName(name: string)
    requires forall k :: 0 <= k < |name| ==> !IsQuote(name[k]) && name[k] != ';' && name[k] != '\n'
    ensures FileName(None, Some(UnquotedPrefix + name + ";")) == name
  {
    var s := UnquotedPrefix + name + ";";
    assert |AttachmentHead| == 12 && |UnquotedFilenameKey| == 9;
    assert s[..21] == UnquotedPrefix;
    assert UnquotedPrefix[..12] == AttachmentHead;
    forall k | 0 <= k < 12
      ensures s[k] != 'f'
    {
      assert s[k] == AttachmentHead[k];
    }
    SkipToMatch(s, 0, 12);
    assert UnquotedPrefix[12..] == UnquotedFilenameKey;
    assert s[12..21] == UnquotedFilenameKey;
    assert s[21..|s| - 1] == name;
    UnquotedMatchAt(s, 12, name);
    assert FirstMatch(s, 12) == MatchAt(s, 12);
  }

  lemma {:induction false} NoWordNoMatch(s: string, i: nat)
    requires forall k :: i <= k && k + |FilenameWord| <= |s| ==> !WordAt(s, k)
    ensures FirstMatch(s, i).None?
    decreases |s| - i
  {
    if i + |FilenameWord| <= |s| {
      NoWordNoMatch(s, i + 1);
    }
  }

  /** A header in which the word `filename` never occurs gives the default name. */
  lemma NoFilenameKeyGivesDefault(header: string)
    requires forall k :: 0 <= k && k + |FilenameWord| <= |header| ==> !WordAt(header, k)
    ensures FileName(None, Some(header)) == "downloaded_file"
  {
    NoWordNoMatch(header, 0);
  }

  /** An explicit file name wins even when it is empty: `??` only falls back on `undefined`. */
  lemma ArgumentWins(name: string, header: Option<string>)
    ensures FileName(Some(name), header) == name
    ensures FileName(Some(""), header) == ""
  {
  }

  /**
   * The outcome of a download: the request is sent first; then the link's
   * container is looked up when one is named, and a missing one is an error.
   */
  function DownloadOutcome(args: DownloadArgs, contentDisposition: Option<string>, containerFound: bool)
    : (r: Result<string, string>)
    ensures TruthyString(args.urlContainerId) && !containerFound ==> r == Err("Container not found")
    ensures !(TruthyString(args.urlContainerId) && !containerFound) ==> r == Ok(FileName(args.fileNameArg, contentDisposition))
  {
    if TruthyString(args.urlContainerId) && !containerFound then Err("Container not found")
    else Ok(FileName(args.fileNameArg, contentDisposition))
  }
}
