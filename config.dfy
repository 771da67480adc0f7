/**
 * The agent's configuration file (src/config.rs): a `KEY=VALUE` text file
 * holding `NODE_ID`, `API_URL` and `AUTH_TOKEN`. It is created once from
 * the command-line overrides, read on every run, and has its token line
 * rewritten after every heartbeat.
 *
 * The file is a `ConfigFile` object: whether it exists, and its text. Reading
 * the keys (done by the dotenv loader) is modelled as: the value of `KEY` is
 * what follows `KEY=` on the first line that starts with `KEY=`.
 */
module Config {
  import opened Wrappers
  import opened Text

  const NodeIdKey := "NODE_ID"
  const ApiUrlKey := "API_URL"
  const AuthTokenKey := "AUTH_TOKEN"

  /** The start of the line that assigns `key`. */
  function Assignment(key: string): string {
    key + "="
  }

  const TokenLinePrefix := "AUTH_TOKEN="

  datatype ConfigError =
    | MissingOverride         // no file yet, and not all three values were given
    | FileUnreadable          // the file to rewrite cannot be read
    | MissingKey(key: string) // the loaded file does not assign `key`
    | EmptyField              // a key is assigned the empty value

  /** What `create_config_file` writes: three newline-terminated lines, only the token trimmed. */
  function ConfigTemplate(nodeId: string, apiUrl: string, authToken: string): string {
    Terminated([Assignment(NodeIdKey) + nodeId, Assignment(ApiUrlKey) + apiUrl, Assignment(AuthTokenKey) + Trim(authToken)])
  }

  // ---------------------------------------------------------------------------
  // Reading keys

  /** Position of the first line starting with `prefix`, or `|lines|` when none does. */
  function FirstLineWith(lines: seq<string>, prefix: string): (r: nat)
    ensures r <= |lines|
    ensures r < |lines| ==> StartsWith(lines[r], prefix)
    ensures forall k :: 0 <= k < r ==> !StartsWith(lines[k], prefix)
  {
    if lines == [] then 0
    else if StartsWith(lines[0], prefix) then 0
    else 1 + FirstLineWith(lines[1..], prefix)
  }

  /** The value the file gives `key`: the rest of the first line that starts with `KEY=`. */
  function Lookup(lines: seq<string>, key: string): Option<string> {
    var i := FirstLineWith(lines, Assignment(key));
    if i < |lines| then Some(lines[i][|key| + 1..]) else None
  }

  /**
   * Loading in `lookup_configuration`: `API_URL`, `AUTH_TOKEN` and `NODE_ID`
   * must all be assigned (checked in that order) and none may be empty; the
   * values come back as (node id, API URL, token).
   */
  function LoadConfiguration(content: string): (r: Result<(string, string, string), ConfigError>)
    ensures var lines := Lines(content);
      r.Success? <==>
        && Lookup(lines, NodeIdKey).Some? && Lookup(lines, NodeIdKey).value != ""
        && Lookup(lines, ApiUrlKey).Some? && Lookup(lines, ApiUrlKey).value != ""
        && Lookup(lines, AuthTokenKey).Some? && Lookup(lines, AuthTokenKey).value != ""
    ensures var lines := Lines(content);
      r.Success? ==>
        r.value == (Lookup(lines, NodeIdKey).value, Lookup(lines, ApiUrlKey).value, Lookup(lines, AuthTokenKey).value)
    ensures var lines := Lines(content);
      && (Lookup(lines, ApiUrlKey).None? ==> r == Failure(MissingKey(ApiUrlKey)))
      && (Lookup(lines, ApiUrlKey).Some? && Lookup(lines, AuthTokenKey).None? ==> r == Failure(MissingKey(AuthTokenKey)))
      && (Lookup(lines, ApiUrlKey).Some? && Lookup(lines, AuthTokenKey).Some? && Lookup(lines, NodeIdKey).None? ==>
            r == Failure(MissingKey(NodeIdKey)))
      && (Lookup(lines, ApiUrlKey).Some? && Lookup(lines, AuthTokenKey).Some? && Lookup(lines, NodeIdKey).Some? &&
          (Lookup(lines, ApiUrlKey).value == "" || Lookup(lines, AuthTokenKey).value == "" || Lookup(lines, NodeIdKey).value == "") ==>
            r == Failure(EmptyField))
  {
    var lines := Lines(content);
    match Lookup(lines, ApiUrlKey)
    case None => Failure(MissingKey(ApiUrlKey))
    case Some(apiUrl) =>
      match Lookup(lines, AuthTokenKey)
      case None => Failure(MissingKey(AuthTokenKey))
      case Some(authToken) =>
        match Lookup(lines, NodeIdKey)
        case None => Failure(MissingKey(NodeIdKey))
        case Some(nodeId) =>
          if apiUrl == "" || authToken == "" || nodeId == "" then Failure(EmptyField)
          else Success((nodeId, apiUrl, authToken))
  }

  // ---------------------------------------------------------------------------
  // Rewriting the token

  /** One line of `write_new_auth_token`'s loop. */
  function RewriteLine(line: string, newAuthToken: string): string {
    if StartsWith(line, TokenLinePrefix) then TokenLinePrefix + newAuthToken else line
  }

  function RewrittenLines(lines: seq<string>, newAuthToken: string): seq<string> {
    seq(|lines|, k requires 0 <= k < |lines| => RewriteLine(lines[k], newAuthToken))
  }

  /** The text `write_new_auth_token` writes back: the rewritten lines joined by `"\n"`. */
  function RewrittenContent(content: string, newAuthToken: string): string {
    Join(RewrittenLines(Lines(content), newAuthToken))
  }

  /**
   * The loop of `write_new_auth_token`: every line starting with
   * `AUTH_TOKEN=` becomes `AUTH_TOKEN=<new token>`, every other line is kept
   * as it is and where it is; `replaced` records whether any line was
   * replaced (the caller never looks at it).
   */
  method ReplaceTokenLines(lines: seq<string>, newAuthToken: string) returns (newLines: seq<string>, replaced: bool)
    ensures |newLines| == |lines|
    ensures forall k :: 0 <= k < |lines| && StartsWith(lines[k], TokenLinePrefix) ==>
              newLines[k] == TokenLinePrefix + newAuthToken
    ensures forall k :: 0 <= k < |lines| && !StartsWith(lines[k], TokenLinePrefix) ==> newLines[k] == lines[k]
    ensures replaced <==> exists k :: 0 <= k < |lines| && StartsWith(lines[k], TokenLinePrefix)
    ensures newLines == RewrittenLines(lines, newAuthToken)
  {
    newLines := [];
    replaced := false;
    for i := 0 to |lines|
      invariant |newLines| == i
      invariant forall k :: 0 <= k < i ==> newLines[k] == RewriteLine(lines[k], newAuthToken)
      invariant replaced <==> exists k :: 0 <= k < i && StartsWith(lines[k], TokenLinePrefix)
    {
      if StartsWith(lines[i], TokenLinePrefix) {
        newLines := newLines + [TokenLinePrefix + newAuthToken];
        replaced := true;
      } else {
        newLines := newLines + [lines[i]];
      }
    }
  }

  // ---------------------------------------------------------------------------
  // The file

  class ConfigFile {
    var present: bool
    var content: string

    constructor (present: bool, content: string)
      ensures this.present == present && this.content == content
    {
      this.present := present;
      this.content := content;
    }

    /** `create_config_file`: create or truncate the file and write the three lines. */
    method CreateConfigFile(nodeId: string, apiUrl: string, authToken: string)
      modifies this
      ensures present && content == ConfigTemplate(nodeId, apiUrl, authToken)
    {
      present := true;
      content := "";
      ghost var written: seq<string> := [];
      var line := Assignment(NodeIdKey) + nodeId;
      TerminatedAppend(written, line);
      content, written := content + line + "\n", written + [line];
      line := Assignment(ApiUrlKey) + apiUrl;
      TerminatedAppend(written, line);
      content, written := content + line + "\n", written + [line];
      line := Assignment(AuthTokenKey) + Trim(authToken);
      TerminatedAppend(written, line);
      content, written := content + line + "\n", written + [line];
      assert written == [Assignment(NodeIdKey) + nodeId, Assignment(ApiUrlKey) + apiUrl, line];
    }

    /**
     * `ensure_config_file`: a missing file is created from the three values,
     * which must then all be given; an existing file is left as it is, whatever
     * values are given.
     */
    method EnsureConfigFile(nodeId: Option<string>, apiUrl: Option<string>, authToken: Option<string>)
      returns (r: Result<(), ConfigError>)
      modifies this
      ensures old(present) ==> r == Success(()) && present && content == old(content)
      ensures !old(present) && (nodeId.None? || apiUrl.None? || authToken.None?) ==>
                r == Failure(MissingOverride) && !present && content == old(content)
      ensures !old(present) && nodeId.Some? && apiUrl.Some? && authToken.Some? ==>
                r == Success(()) && present && content == ConfigTemplate(nodeId.value, apiUrl.value, authToken.value)
    {
      if !present {
        if nodeId.None? || apiUrl.None? || authToken.None? {
          return Failure(MissingOverride);
        }
        CreateConfigFile(nodeId.value, apiUrl.value, authToken.value);
      }
      return Success(());
    }

    /** `lookup_configuration`: ensure the file, then load the three values from it. */
    method LookupConfiguration(nodeId: Option<string>, apiUrl: Option<string>, authToken: Option<string>)
      returns (r: Result<(string, string, string), ConfigError>)
      modifies this
      ensures old(present) ==> present && content == old(content) && r == LoadConfiguration(content)
      ensures !old(present) && (nodeId.None? || apiUrl.None? || authToken.None?) ==>
                r == Failure(MissingOverride) && !present && content == old(content)
      ensures !old(present) && nodeId.Some? && apiUrl.Some? && authToken.Some? ==>
                && present && content == ConfigTemplate(nodeId.value, apiUrl.value, authToken.value)
                && r == LoadConfiguration(content)
    {
      var ensured := EnsureConfigFile(nodeId, apiUrl, authToken);
      if ensured.Failure? {
        return Failure(ensured.error);
      }
      r := LoadConfiguration(content);
    }

    /** `write_new_auth_token`: read the file, replace its token lines, write the lines back joined by `"\n"`. */
    method WriteNewAuthToken(newAuthToken: string) returns (r: Result<(), ConfigError>)
      modifies this
      ensures !old(present) ==> r == Failure(FileUnreadable) && !present && content == old(content)
      ensures old(present) ==> r == Success(()) && present && content == RewrittenContent(old(content), newAuthToken)
    {
      if !present {
        return Failure(FileUnreadable);
      }
      var cfgContents := content;
      var newLines, replaced := ReplaceTokenLines(Lines(cfgContents), newAuthToken);
      content := "";
      content := Join(newLines);
      return Success(());
    }
  }

  // ---------------------------------------------------------------------------
  // Properties

  /** Two lines that start with prefixes differing at position `i` cannot both start with them. */
  lemma PrefixesClash(s: string, p: string, q: string, i: nat)
    requires i < |p| && i < |q| && p[i] != q[i]
    ensures !(StartsWith(s, p) && StartsWith(s, q))
  {
  }

  lemma StartsWithConcat(p: string, rest: string)
    ensures StartsWith(p + rest, p)
  {
    assert (p + rest)[..|p|] == p;
  }

  /** The three assignment prefixes exclude one another. */
  lemma KeysExclusive(s: string)
    ensures !(StartsWith(s, Assignment(NodeIdKey)) && StartsWith(s, Assignment(ApiUrlKey)))
    ensures !(StartsWith(s, Assignment(NodeIdKey)) && StartsWith(s, TokenLinePrefix))
    ensures !(StartsWith(s, Assignment(ApiUrlKey)) && StartsWith(s, TokenLinePrefix))
  {
    PrefixesClash(s, Assignment(NodeIdKey), Assignment(ApiUrlKey), 0);
    PrefixesClash(s, Assignment(NodeIdKey), TokenLinePrefix, 0);
    PrefixesClash(s, Assignment(ApiUrlKey), TokenLinePrefix, 1);
  }

  /**
   * The created file reads back as exactly its three lines, in order, when
   * the values hold no line feed and the node id and URL do not end in `'\r'`.
   */
  lemma TemplateLines(nodeId: string, apiUrl: string, authToken: string)
    requires Terminable(nodeId) && Terminable(apiUrl) && '\n' !in Trim(authToken)
    ensures Lines(ConfigTemplate(nodeId, apiUrl, authToken)) ==
      [Assignment(NodeIdKey) + nodeId, Assignment(ApiUrlKey) + apiUrl, TokenLinePrefix + Trim(authToken)]
  {
    var lines := [Assignment(NodeIdKey) + nodeId, Assignment(ApiUrlKey) + apiUrl, TokenLinePrefix + Trim(authToken)];
    assert Assignment(AuthTokenKey) == TokenLinePrefix;
    assert ConfigTemplate(nodeId, apiUrl, authToken) == Terminated(lines);
    TerminableConcat(Assignment(NodeIdKey), nodeId);
    TerminableConcat(Assignment(ApiUrlKey), apiUrl);
    TrimmedTerminable(authToken);
    TerminableConcat(TokenLinePrefix, Trim(authToken));
    LinesOfTerminated(lines);
  }

  /** In the three lines of a created file, each key reads as the value written after it. */
  lemma LookupTemplateLines(nodeId: string, apiUrl: string, token: string)
    ensures var lines := [Assignment(NodeIdKey) + nodeId, Assignment(ApiUrlKey) + apiUrl, TokenLinePrefix + token];
      && Lookup(lines, NodeIdKey) == Some(nodeId)
      && Lookup(lines, ApiUrlKey) == Some(apiUrl)
      && Lookup(lines, AuthTokenKey) == Some(token)
  {
    var lines := [Assignment(NodeIdKey) + nodeId, Assignment(ApiUrlKey) + apiUrl, TokenLinePrefix + token];
    assert Assignment(AuthTokenKey) == TokenLinePrefix;
    StartsWithConcat(Assignment(NodeIdKey), nodeId);
    StartsWithConcat(Assignment(ApiUrlKey), apiUrl);
    StartsWithConcat(TokenLinePrefix, token);
    KeysExclusive(lines[0]);
    KeysExclusive(lines[1]);
    assert FirstLineWith(lines, Assignment(NodeIdKey)) == 0;
    assert FirstLineWith(lines, Assignment(ApiUrlKey)) == 1;
    assert !StartsWith(lines[0], TokenLinePrefix) && !StartsWith(lines[1], TokenLinePrefix);
    assert StartsWith(lines[2], TokenLinePrefix);
    assert FirstLineWith(lines, TokenLinePrefix) == 2;
    assert lines[0][|NodeIdKey| + 1..] == nodeId;
    assert lines[1][|ApiUrlKey| + 1..] == apiUrl;
    assert lines[2][|AuthTokenKey| + 1..] == token;
  }

  /**
   * Loading a freshly created file gives back the values it was created
   * from (the token trimmed), or the empty-field error if one is empty.
   */
  lemma LoadAfterCreate(nodeId: string, apiUrl: string, authToken: string)
    requires Terminable(nodeId) && Terminable(apiUrl) && '\n' !in Trim(authToken)
    ensures LoadConfiguration(ConfigTemplate(nodeId, apiUrl, authToken)) ==
      if nodeId == "" || apiUrl == "" || Trim(authToken) == "" then Failure(EmptyField)
      else Success((nodeId, apiUrl, Trim(authToken)))
  {
    TemplateLines(nodeId, apiUrl, authToken);
    LookupTemplateLines(nodeId, apiUrl, Trim(authToken));
  }

  /** Rewriting with the same token twice is the same as rewriting once, line by line. */
  lemma RewriteLinesIdempotent(lines: seq<string>, newAuthToken: string)
    ensures RewrittenLines(RewrittenLines(lines, newAuthToken), newAuthToken) == RewrittenLines(lines, newAuthToken)
  {
    StartsWithConcat(TokenLinePrefix, newAuthToken);
  }

  /** With no token line in the file, the rewrite adds none and keeps every line. */
  lemma RewriteWithoutTokenLine(content: string, newAuthToken: string)
    requires forall k :: 0 <= k < |Lines(content)| ==> !StartsWith(Lines(content)[k], TokenLinePrefix)
    ensures RewrittenLines(Lines(content), newAuthToken) == Lines(content)
    ensures RewrittenContent(content, newAuthToken) == Join(Lines(content))
  {
  }

  /** Rewriting to a token without a line feed puts no line feed into any line. */
  lemma RewrittenLinesHaveNoLineFeed(lines: seq<string>, newAuthToken: string)
    requires '\n' !in newAuthToken
    requires forall k :: 0 <= k < |lines| ==> '\n' !in lines[k]
    ensures forall k :: 0 <= k < |lines| ==> '\n' !in RewrittenLines(lines, newAuthToken)[k]
  {
    var rewritten := RewrittenLines(lines, newAuthToken);
    NoLineFeedConcat(TokenLinePrefix, newAuthToken);
    forall k | 0 <= k < |rewritten|
      ensures '\n' !in rewritten[k]
    {
      if !StartsWith(lines[k], TokenLinePrefix) {
        assert rewritten[k] == lines[k];
      }
    }
  }

  /** Rewritten lines without line feeds, joined, read back as themselves under the proviso. */
  lemma JoinedRewriteReadsBack(lines: seq<string>, newAuthToken: string)
    requires forall k :: 0 <= k < |lines| ==> '\n' !in lines[k]
    requires '\n' !in newAuthToken
    requires RewriteProviso(RewrittenLines(lines, newAuthToken))
    ensures Lines(Join(RewrittenLines(lines, newAuthToken))) == RewrittenLines(lines, newAuthToken)
  {
    RewrittenLinesHaveNoLineFeed(lines, newAuthToken);
    LinesOfJoinExact(RewrittenLines(lines, newAuthToken));
  }

  /**
   * The round trip of a first run: create the file, then rotate the token to
   * one without a line feed; the file then reads as the node id, the URL and
   * the new token.
   */
  lemma CreateThenRotate(nodeId: string, apiUrl: string, authToken: string, newAuthToken: string)
    requires Terminable(nodeId) && Terminable(apiUrl) && '\n' !in Trim(authToken)
    requires '\n' !in newAuthToken
    ensures Lines(RewrittenContent(ConfigTemplate(nodeId, apiUrl, authToken), newAuthToken)) ==
      [Assignment(NodeIdKey) + nodeId, Assignment(ApiUrlKey) + apiUrl, TokenLinePrefix + newAuthToken]
  {
    var content := ConfigTemplate(nodeId, apiUrl, authToken);
    var lines := [Assignment(NodeIdKey) + nodeId, Assignment(ApiUrlKey) + apiUrl, TokenLinePrefix + Trim(authToken)];
    assert Lines(content) == lines by {
      TemplateLines(nodeId, apiUrl, authToken);
    }
    assert RewriteProviso(RewrittenLines(lines, newAuthToken)) by {
      TemplateRewrite(nodeId, apiUrl, Trim(authToken), newAuthToken);
    }
    RewrittenContentReadsBack(content, newAuthToken);
    TemplateRewrite(nodeId, apiUrl, Trim(authToken), newAuthToken);
  }

  /** A rotated file reads back as its rewritten lines when those meet the proviso. */
  lemma RewrittenContentReadsBack(content: string, newAuthToken: string)
    requires '\n' !in newAuthToken
    requires RewriteProviso(RewrittenLines(Lines(content), newAuthToken))
    ensures Lines(RewrittenContent(content, newAuthToken)) == RewrittenLines(Lines(content), newAuthToken)
  {
    LinesHaveNoLineFeed(content);
    JoinedRewriteReadsBack(Lines(content), newAuthToken);
  }

  /** The rotation replaces the third line of a created file only, and the result meets the proviso. */
  lemma TemplateRewrite(nodeId: string, apiUrl: string, token: string, newAuthToken: string)
    requires Terminable(nodeId) && Terminable(apiUrl)
    ensures RewrittenLines([Assignment(NodeIdKey) + nodeId, Assignment(ApiUrlKey) + apiUrl, TokenLinePrefix + token], newAuthToken)
      == [Assignment(NodeIdKey) + nodeId, Assignment(ApiUrlKey) + apiUrl, TokenLinePrefix + newAuthToken]
    ensures RewriteProviso([Assignment(NodeIdKey) + nodeId, Assignment(ApiUrlKey) + apiUrl, TokenLinePrefix + newAuthToken])
  {
    var nodeLine, urlLine := Assignment(NodeIdKey) + nodeId, Assignment(ApiUrlKey) + apiUrl;
    var tokenLine := TokenLinePrefix + newAuthToken;
    StartsWithConcat(Assignment(NodeIdKey), nodeId);
    StartsWithConcat(Assignment(ApiUrlKey), apiUrl);
    StartsWithConcat(TokenLinePrefix, token);
    KeysExclusive(nodeLine);
    KeysExclusive(urlLine);
    TerminableConcat(Assignment(NodeIdKey), nodeId);
    TerminableConcat(Assignment(ApiUrlKey), apiUrl);
    assert tokenLine[0] == 'A';
  }

  /** A trailing blank line never assigns a key, so dropping it changes no lookup. */
  lemma LookupIgnoresTrailingBlank(lines: seq<string>, key: string)
    ensures Lookup(DropTrailingBlank(lines), key) == Lookup(lines, key)
  {
    if lines != [] && lines[|lines| - 1] == "" {
      var init := lines[..|lines| - 1];
      var i := FirstLineWith(lines, Assignment(key));
      var j := FirstLineWith(init, Assignment(key));
      assert forall k :: 0 <= k < |init| ==> init[k] == lines[k];
      assert !StartsWith(lines[|lines| - 1], Assignment(key));
    }
  }

  /** Lookups of keys other than the token see the same lines before and after the rewrite. */
  lemma LookupSurvivesRewrite(lines: seq<string>, key: string, newAuthToken: string)
    requires key == NodeIdKey || key == ApiUrlKey
    ensures Lookup(RewrittenLines(lines, newAuthToken), key) == Lookup(lines, key)
  {
    var rewritten := RewrittenLines(lines, newAuthToken);
    var p := Assignment(key);
    forall k | 0 <= k < |lines|
      ensures StartsWith(rewritten[k], p) <==> StartsWith(lines[k], p)
      ensures StartsWith(lines[k], p) ==> rewritten[k] == lines[k]
    {
      KeysExclusive(lines[k]);
      KeysExclusive(rewritten[k]);
      StartsWithConcat(TokenLinePrefix, newAuthToken);
    }
  }

  /** After the rewrite, the token that a file assigning one reads as is the new token. */
  lemma TokenLookupAfterRewrite(lines: seq<string>, newAuthToken: string)
    requires Lookup(lines, AuthTokenKey).Some?
    ensures Lookup(RewrittenLines(lines, newAuthToken), AuthTokenKey) == Some(newAuthToken)
  {
    var rewritten := RewrittenLines(lines, newAuthToken);
    var p := TokenLinePrefix;
    assert Assignment(AuthTokenKey) == p;
    StartsWithConcat(p, newAuthToken);
    forall k | 0 <= k < |lines|
      ensures StartsWith(rewritten[k], p) <==> StartsWith(lines[k], p)
    {
    }
    var i := FirstLineWith(lines, p);
    assert FirstLineWith(rewritten, p) == i;
    assert rewritten[i] == p + newAuthToken;
    assert (p + newAuthToken)[|p|..] == newAuthToken;
  }

  /**
   * Rotating the token of a loadable file, then loading it again, gives the
   * same node id and URL and the new token, provided the token has no line
   * feed and does not end in `'\r'`, and no line of the file but the last
   * ends in `'\r'`; an empty new token makes the reload fail with the
   * empty-field error.
   */
  lemma LoadAfterRotate(content: string, newAuthToken: string)
    requires LoadConfiguration(content).Success?
    requires forall k :: 0 <= k < |Lines(content)| - 1 ==> !EndsWithCr(Lines(content)[k])
    requires Terminable(newAuthToken)
    ensures LoadConfiguration(RewrittenContent(content, newAuthToken)) ==
      if newAuthToken == "" then Failure(EmptyField)
      else Success((LoadConfiguration(content).value.0, LoadConfiguration(content).value.1, newAuthToken))
  {
    var lines := Lines(content);
    var rewritten := RewrittenLines(lines, newAuthToken);
    LinesHaveNoLineFeed(content);
    assert '\n' !in TokenLinePrefix + newAuthToken;
    assert !EndsWithCr(TokenLinePrefix + newAuthToken);
    LinesOfJoin(rewritten);
    var reread := Lines(RewrittenContent(content, newAuthToken));
    assert reread == DropTrailingBlank(rewritten);
    LookupIgnoresTrailingBlank(rewritten, NodeIdKey);
    LookupIgnoresTrailingBlank(rewritten, ApiUrlKey);
    LookupIgnoresTrailingBlank(rewritten, AuthTokenKey);
    LookupSurvivesRewrite(lines, NodeIdKey, newAuthToken);
    LookupSurvivesRewrite(lines, ApiUrlKey, newAuthToken);
    TokenLookupAfterRewrite(lines, newAuthToken);
  }

  /** Rewriting distributes over a first line and the rest. */
  lemma RewrittenLinesCons(line: string, rest: seq<string>, newAuthToken: string)
    ensures RewrittenLines([line] + rest, newAuthToken) == [RewriteLine(line, newAuthToken)] + RewrittenLines(rest, newAuthToken)
  {
    var l, r := RewrittenLines([line] + rest, newAuthToken), [RewriteLine(line, newAuthToken)] + RewrittenLines(rest, newAuthToken);
    forall k | 0 <= k < |l| ensures l[k] == r[k] {
      if k > 0 {
        assert ([line] + rest)[k] == rest[k - 1];
      }
    }
  }

  /**
   * Lines that a rewrite to `newAuthToken` leaves as they are (every token
   * line already reads `AUTH_TOKEN=<new>`), joined and read back, rewrite to
   * themselves again: reading back can only strip a `'\r'` before a line
   * feed, and only from a token line, which the rewrite restores.
   */
  lemma {:induction false} RewriteOfJoinStable(lines: seq<string>, newAuthToken: string)
    requires '\n' !in newAuthToken
    requires forall k :: 0 <= k < |lines| ==> '\n' !in lines[k]
    requires forall k :: 0 <= k < |lines| ==>
               StartsWith(lines[k], TokenLinePrefix) ==> lines[k] == TokenLinePrefix + newAuthToken
    requires forall k :: 0 <= k < |lines| - 1 ==>
               !EndsWithCr(lines[k]) || lines[k] == TokenLinePrefix + newAuthToken
    requires lines == [] || lines[|lines| - 1] != ""
    ensures RewrittenLines(Lines(Join(lines)), newAuthToken) == lines
  {
    if |lines| == 1 {
      LinesOfSingle(lines[0]);
    } else if |lines| > 1 {
      var tail := lines[1..];
      var rest := Join(tail);
      assert Join(lines) == lines[0] + "\n" + rest;
      LinesCons(lines[0], rest);
      RewriteOfJoinStable(tail, newAuthToken);
      RewrittenLinesCons(StripCr(lines[0]), Lines(rest), newAuthToken);
      if EndsWithCr(lines[0]) {
        var p := TokenLinePrefix;
        assert lines[0] == p + newAuthToken;
        assert |newAuthToken| > 0 by {
          assert lines[0][|lines[0]| - 1] == '\r';
        }
        assert StripCr(lines[0]) == p + newAuthToken[..|newAuthToken| - 1];
        StartsWithConcat(p, newAuthToken[..|newAuthToken| - 1]);
      }
      assert RewriteLine(StripCr(lines[0]), newAuthToken) == lines[0];
      assert [lines[0]] + tail == lines;
    }
  }

  /** No line but the last ends in `'\r'`, and the last line is not blank. */
  predicate RewriteProviso(lines: seq<string>) {
    && (forall k :: 0 <= k < |lines| - 1 ==> !EndsWithCr(lines[k]))
    && (lines == [] || lines[|lines| - 1] != "")
  }

  /**
   * On text whose lines, but for the last, do not end in `'\r'` and whose
   * last line is not blank, rewriting twice with the same token (one without
   * a line feed) gives the same text as rewriting once.
   */
  lemma RewriteContentIdempotent(content: string, newAuthToken: string)
    requires RewriteProviso(Lines(content))
    requires '\n' !in newAuthToken
    ensures RewrittenContent(RewrittenContent(content, newAuthToken), newAuthToken) == RewrittenContent(content, newAuthToken)
  {
    var lines := Lines(content);
    var rewritten := RewrittenLines(lines, newAuthToken);
    var once := Join(rewritten);
    assert RewrittenContent(content, newAuthToken) == once;
    LinesHaveNoLineFeed(content);
    NoLineFeedConcat(TokenLinePrefix, newAuthToken);
    forall k | 0 <= k < |rewritten|
      ensures '\n' !in rewritten[k]
      ensures StartsWith(rewritten[k], TokenLinePrefix) ==> rewritten[k] == TokenLinePrefix + newAuthToken
      ensures k < |rewritten| - 1 ==> !EndsWithCr(rewritten[k]) || rewritten[k] == TokenLinePrefix + newAuthToken
      ensures k == |rewritten| - 1 ==> rewritten[k] != ""
    {
      if !StartsWith(lines[k], TokenLinePrefix) {
        assert rewritten[k] == lines[k];
      }
    }
    RewriteOfJoinStable(rewritten, newAuthToken);
    assert RewrittenContent(once, newAuthToken) == Join(RewrittenLines(Lines(once), newAuthToken));
  }

  /** Text written as terminated lines, none blank at the end, meets that proviso. */
  lemma RewriteTerminatedIdempotent(lines: seq<string>, newAuthToken: string)
    requires forall k :: 0 <= k < |lines| ==> Terminable(lines[k])
    requires lines == [] || lines[|lines| - 1] != ""
    requires '\n' !in newAuthToken
    ensures RewrittenContent(RewrittenContent(Terminated(lines), newAuthToken), newAuthToken)
              == RewrittenContent(Terminated(lines), newAuthToken)
  {
    var content := Terminated(lines);
    LinesOfTerminated(lines);
    assert RewriteProviso(lines);
    RewriteContentIdempotent(content, newAuthToken);
  }

  /** In particular a freshly created file, once rotated, is unchanged by a second rotation to the same token. */
  lemma RotateTwiceAfterCreate(nodeId: string, apiUrl: string, authToken: string, newAuthToken: string)
    requires Terminable(nodeId) && Terminable(apiUrl) && '\n' !in Trim(authToken)
    requires '\n' !in newAuthToken
    ensures RewrittenContent(RewrittenContent(ConfigTemplate(nodeId, apiUrl, authToken), newAuthToken), newAuthToken)
              == RewrittenContent(ConfigTemplate(nodeId, apiUrl, authToken), newAuthToken)
  {
    var lines := [Assignment(NodeIdKey) + nodeId, Assignment(ApiUrlKey) + apiUrl, Assignment(AuthTokenKey) + Trim(authToken)];
    assert ConfigTemplate(nodeId, apiUrl, authToken) == Terminated(lines);
    TerminableConcat(Assignment(NodeIdKey), nodeId);
    TerminableConcat(Assignment(ApiUrlKey), apiUrl);
    TrimmedTerminable(authToken);
    TerminableConcat(Assignment(AuthTokenKey), Trim(authToken));
    RewriteTerminatedIdempotent(lines, newAuthToken);
  }

  /**
   * Without that proviso the rewrite is not idempotent on the text: the
   * lines are joined with no final `"\n"`, so a file ending in a blank line
   * (any first line other than a token line) loses that blank line at the
   * first rewrite, and its final line ending at the second.
   */
  lemma RewriteDropsTrailingBlankLine(line: string, newAuthToken: string)
    requires Terminable(line) && line != "" && !StartsWith(line, TokenLinePrefix)
    ensures RewrittenContent(line + "\n" + "\n", newAuthToken) == line + "\n"
    ensures RewrittenContent(line + "\n", newAuthToken) == line
    ensures RewrittenContent(RewrittenContent(line + "\n" + "\n", newAuthToken), newAuthToken)
              != RewrittenContent(line + "\n" + "\n", newAuthToken)
  {
    LinesCons("", "");
    assert "" + "\n" + "" == "\n";
    LinesCons(line, "\n");
    assert Lines(line + "\n" + "\n") == [line, ""];
    assert RewrittenLines([line, ""], newAuthToken) == [line, ""];
    assert Join([line, ""]) == line + "\n" + "";
    LinesCons(line, "");
    assert line + "\n" + "" == line + "\n";
    assert RewrittenLines([line], newAuthToken) == [line];
    assert |line + "\n"| != |line|;
  }
}
