/** The Salesforce mock of the earlier plugin generation (`SfdcPluginImpl`): record
    identifiers in base 62, the SObject named by a SOQL query, the attributes added
    to each record, and the method check on updates. */
module SfdcPlugin {
  import opened Common

  // ---------------------------------------------------------------------------
  // Base-62 identifiers

  /** `CHARACTERS.charAt(d)` for the alphabet "0-9a-zA-Z": ten digits, then the
      lower-case letters, then the upper-case ones. */
  function Char62(d: int): (c: char)
    requires 0 <= d < 62
    ensures IsAsciiLetterOrDigit(c)
  {
    if d < 10 then ('0' as int + d) as char
    else if d < 36 then ('a' as int + d - 10) as char
    else ('A' as int + d - 36) as char
  }

  /** The digit value of an alphabet character. */
  function Value62(c: char): nat {
    if '0' <= c <= '9' then c as int - '0' as int
    else if 'a' <= c <= 'z' then c as int - 'a' as int + 10
    else if 'A' <= c <= 'Z' then c as int - 'A' as int + 36
    else 0
  }

  /** Each digit has its own character, which decodes back to it. */
  lemma Char62Decodes(d: int)
    requires 0 <= d < 62
    ensures Value62(Char62(d)) == d
    ensures d > 0 ==> Char62(d) != '0'
  {
  }

  /** What the loop builds from `b10`: nothing unless it is positive, else the
      digits most significant first. */
  function Base62(b10: int): string
    decreases if b10 > 0 then b10 else 0
  {
    if b10 <= 0 then "" else Base62(b10 / 62) + [Char62(b10 % 62)]
  }

  function Decode62(s: string): nat {
    if s == [] then 0 else Decode62(s[..|s| - 1]) * 62 + Value62(s[|s| - 1])
  }

  /** For a positive value the digits decode back to it, use only the alphabet, and
      do not start with '0'. */
  lemma {:induction false} Base62Correct(n: int)
    requires n > 0
    ensures Decode62(Base62(n)) == n
    ensures |Base62(n)| >= 1 && Base62(n)[0] != '0'
    ensures forall i :: 0 <= i < |Base62(n)| ==> IsAsciiLetterOrDigit(Base62(n)[i])
    decreases n
  {
    var init := Base62(n / 62);
    var s := Base62(n);
    assert s == init + [Char62(n % 62)];
    assert s[..|s| - 1] == init;
    Char62Decodes(n % 62);
    if n / 62 > 0 {
      Base62Correct(n / 62);
      assert s[0] == init[0];
    } else {
      assert init == "";
    }
  }

  /** `Math.abs` on a Java `int`: the most negative value is its own absolute value. */
  function JavaIntAbs(x: int): (r: int)
    requires IsInt32(x)
    ensures x != INT_MIN ==> r >= 0 && (r == x || r == -x)
    ensures x == INT_MIN ==> r == INT_MIN
  {
    if x == INT_MIN then INT_MIN else if x < 0 then -x else x
  }

  function Abs(x: int): nat {
    if x < 0 then -x else x
  }

  /** The base-62 loop of `generateBase62Id`. */
  method ToBase62(start: int) returns (ret: string)
    ensures ret == Base62(start)
  {
    var b10 := start;
    ret := "";
    while b10 > 0
      invariant Base62(b10) + ret == Base62(start)
      decreases b10
    {
      assert Base62(b10) == Base62(b10 / 62) + [Char62(b10 % 62)];
      ret := [Char62(b10 % 62)] + ret;
      b10 := b10 / 62;
    }
  }

  /** `generateBase62Id` as written, over the hash of the random UUID: the absolute
      value is taken on the `int` before widening. */
  method GenerateBase62Id(uuidHash: int) returns (ret: string)
    requires IsInt32(uuidHash)
    ensures ret == Base62(JavaIntAbs(uuidHash))
  {
    ret := ToBase62(JavaIntAbs(uuidHash));
  }

  /** A hash of `Integer.MIN_VALUE` gives the empty identifier. */
  lemma MinHashGivesEmptyId()
    ensures Base62(JavaIntAbs(INT_MIN)) == ""
  {
  }

  /** `generateBase62Id` with the absolute value taken on the `long`. */
  method GenerateBase62IdCorrected(uuidHash: int) returns (ret: string)
    requires IsInt32(uuidHash)
    ensures ret == Base62(Abs(uuidHash))
  {
    ret := ToBase62(Abs(uuidHash));
  }

  /** With the absolute value on the `long`, every non-zero hash gives a non-empty
      identifier that decodes to the hash's magnitude. */
  lemma CorrectedIdNonEmpty(uuidHash: int)
    requires IsInt32(uuidHash) && uuidHash != 0
    ensures |Base62(Abs(uuidHash))| >= 1
    ensures Decode62(Base62(Abs(uuidHash))) == Abs(uuidHash)
  {
    Base62Correct(Abs(uuidHash));
  }

  // ---------------------------------------------------------------------------
  // The SObject of a query

  /** Where the token starting at s[0] ends. */
  function TokenEnd(s: string): (n: nat)
    requires s != [] && s[0] != ' '
    ensures 1 <= n <= |s|
    ensures forall i :: 0 <= i < n ==> s[i] != ' '
    ensures n == |s| || s[n] == ' '
  {
    if |s| == 1 || s[1] == ' ' then 1 else 1 + TokenEnd(s[1..])
  }

  /** The tokens a `StringTokenizer` with the delimiter " " returns, in order. */
  function Tokens(s: string): (tokens: seq<string>)
    ensures forall t :: t in tokens ==> t != [] && ' ' !in t
    decreases |s|
  {
    if s == [] then []
    else if s[0] == ' ' then Tokens(s[1..])
    else
      var n := TokenEnd(s);
      assert forall i :: 0 <= i < n ==> s[..n][i] != ' ';
      [s[..n]] + Tokens(s[n..])
  }

  /** The token after the first "FROM", ignoring case, that is not the last token. */
  function SObjectNameOf(tokens: seq<string>): Option<string> {
    if |tokens| < 2 then None
    else if EqualsIgnoreCase("FROM", tokens[0]) then Some(tokens[1])
    else SObjectNameOf(tokens[1..])
  }

  /** `getSObjectName`: walks the tokens; a query without tokens fails on the first
      `nextToken`. */
  method GetSObjectName(query: string) returns (r: Result<Option<string>>)
    ensures r.Err? <==> Tokens(query) == []
    ensures r.Ok? ==> r.value == SObjectNameOf(Tokens(query))
  {
    var tokens := Tokens(query);
    if tokens == [] {
      return Err("NoSuchElementException");
    }
    var i := 0;
    var token := tokens[0];
    while i + 1 < |tokens|
      invariant 0 <= i < |tokens| && token == tokens[i]
      invariant SObjectNameOf(tokens[i..]) == SObjectNameOf(tokens)
    {
      if EqualsIgnoreCase("FROM", token) {
        return Ok(Some(tokens[i + 1]));
      }
      assert tokens[i..][1..] == tokens[i + 1..];
      i := i + 1;
      token := tokens[i];
    }
    r := Ok(None);
  }

  /** The first FROM with a token after it decides the name. */
  lemma {:induction false} FirstFromDecides(tokens: seq<string>, k: nat)
    requires k + 1 < |tokens| && EqualsIgnoreCase("FROM", tokens[k])
    requires forall j :: 0 <= j < k ==> !EqualsIgnoreCase("FROM", tokens[j])
    ensures SObjectNameOf(tokens) == Some(tokens[k + 1])
  {
    if k > 0 {
      FirstFromDecides(tokens[1..], k - 1);
    }
  }

  /** Without a FROM before the last token there is no name. */
  lemma {:induction false} NoFromNoName(tokens: seq<string>)
    requires forall j :: 0 <= j < |tokens| - 1 ==> !EqualsIgnoreCase("FROM", tokens[j])
    ensures SObjectNameOf(tokens).None?
  {
    if |tokens| >= 2 {
      NoFromNoName(tokens[1..]);
    }
  }

  /** A token followed by a space (or by nothing) is split off whole. */
  lemma TokensStep(token: string, rest: string)
    requires token != [] && ' ' !in token
    requires rest == [] || rest[0] == ' '
    ensures Tokens(token + rest) == [token] + Tokens(rest)
  {
    var s := token + rest;
    var n := TokenEnd(s);
    if rest != [] {
      assert s[|token|] == ' ';
    }
    assert s[..n] == token && s[n..] == rest;
  }

  /** The query "SELECT Name, Id from Account LIMIT 100" (its words joined by single
      spaces) tokenizes to its words and names "Account". */
  lemma QueryExample()
    ensures Tokens(SpaceJoined(["SELECT", "Name,", "Id", "from", "Account", "LIMIT", "100"])) ==
            ["SELECT", "Name,", "Id", "from", "Account", "LIMIT", "100"]
    ensures SObjectNameOf(Tokens(SpaceJoined(["SELECT", "Name,", "Id", "from", "Account", "LIMIT", "100"]))) ==
            Some("Account")
  {
    JoinedTokens(["SELECT", "Name,", "Id", "from", "Account", "LIMIT", "100"]);
    QueryWordsName();
  }

  lemma QueryWordsName()
    ensures SObjectNameOf(["SELECT", "Name,", "Id", "from", "Account", "LIMIT", "100"]) == Some("Account")
  {
    assert |Lower("FROM")| == 4;
    assert Lower("FROM") == Lower("from");
    FirstFromDecides(["SELECT", "Name,", "Id", "from", "Account", "LIMIT", "100"], 3);
  }

  /** Words without spaces joined by single spaces tokenize back to the words. */
  lemma {:induction false} JoinedTokens(words: seq<string>)
    requires forall i :: 0 <= i < |words| ==> words[i] != [] && ' ' !in words[i]
    ensures Tokens(SpaceJoined(words)) == words
    decreases |words|
  {
    if |words| == 1 {
      TokensStep(words[0], "");
      assert SpaceJoined(words) == words[0] + "";
    } else if |words| > 1 {
      var rest := " " + SpaceJoined(words[1..]);
      assert SpaceJoined(words) == words[0] + rest;
      TokensStep(words[0], rest);
      assert Tokens(rest) == Tokens(SpaceJoined(words[1..]));
      JoinedTokens(words[1..]);
      assert words == [words[0]] + words[1..];
    }
  }

  /** Words separated by single spaces. */
  function SpaceJoined(words: seq<string>): string {
    if words == [] then ""
    else if |words| == 1 then words[0]
    else words[0] + " " + SpaceJoined(words[1..])
  }

  // ---------------------------------------------------------------------------
  // Record attributes

  /** A JSON value of a record. */
  datatype Json = JString(text: string) | JObject(fields: map<string, Json>) | JNull | JOther(id: nat)

  /** A Vert.x `JsonObject`, changed in place. */
  class JsonObject {
    var fields: map<string, Json>

    constructor (fields: map<string, Json>)
      ensures this.fields == fields
    {
      this.fields := fields;
    }
  }

  const FIELD_ID: string := "Id"

  /** `getString("Id")`; a missing, null or non-string "Id" gives no identifier. */
  function RecordId(fields: map<string, Json>): (r: Option<string>)
    ensures r.Some? <==> FIELD_ID in fields && fields[FIELD_ID].JString?
    ensures r.Some? ==> r.value == fields[FIELD_ID].text
  {
    if FIELD_ID in fields && fields[FIELD_ID].JString? then Some(fields[FIELD_ID].text) else None
  }

  function RecordUrl(apiVersion: string, sObjectName: string, sObjectId: string): string {
    "/services/data/" + apiVersion + "/sobjects/" + sObjectName + "/" + sObjectId
  }

  /** The `attributes` object of a record. */
  function RecordAttributes(apiVersion: string, sObjectName: string, sObjectId: string): (a: Json)
    ensures a.JObject? && a.fields.Keys == {"type", "url"}
    ensures a.fields["type"] == JString(sObjectName)
    ensures a.fields["url"] == JString(RecordUrl(apiVersion, sObjectName, sObjectId))
  {
    JObject(map["type" := JString(sObjectName), "url" := JString(RecordUrl(apiVersion, sObjectName, sObjectId))])
  }

  /** `addRecordAttributes`: a record without an identifier is an error; otherwise only
      "attributes" is set, on the record itself. */
  method AddRecordAttributes(record: JsonObject, apiVersion: string, sObjectName: string)
    returns (r: Result<JsonObject>)
    modifies record
    ensures RecordId(old(record.fields)).None? ==> r.Err? && record.fields == old(record.fields)
    ensures RecordId(old(record.fields)).Some? ==>
              r == Ok(record) &&
              record.fields == old(record.fields)["attributes" := RecordAttributes(apiVersion, sObjectName,
                                                                                   RecordId(old(record.fields)).value)]
  {
    var sObjectId := RecordId(record.fields);
    if sObjectId.None? {
      return Err("Record missing '" + FIELD_ID + "' field");
    }
    record.fields := record.fields["attributes" := RecordAttributes(apiVersion, sObjectName, sObjectId.value)];
    r := Ok(record);
  }

  /** The URL of a record names its API version, type and identifier in that order. */
  lemma RecordUrlParts(apiVersion: string, sObjectName: string, sObjectId: string)
    ensures StartsWith(RecordUrl(apiVersion, sObjectName, sObjectId), "/services/data/" + apiVersion + "/sobjects/")
    ensures EndsWith(RecordUrl(apiVersion, sObjectName, sObjectId), "/" + sObjectName + "/" + sObjectId)
  {
    var prefix := "/services/data/" + apiVersion + "/sobjects/";
    var url := RecordUrl(apiVersion, sObjectName, sObjectId);
    assert url == prefix + ("/" + sObjectName + "/" + sObjectId)[1..];
    assert url[..|prefix|] == prefix;
  }

  // ---------------------------------------------------------------------------
  // Updates

  datatype VertxHttpMethod = OPTIONS | GET | HEAD | POST | PUT | DELETE | TRACE | CONNECT | PATCH | OTHER

  const HTTP_NO_CONTENT: int := 204
  const HTTP_BAD_METHOD: int := 405

  datatype UpdateResult = UpdateAccepted(status: int) | RoutingFailed(status: int)

  /** `handleUpdateRequest`: PATCH, or the `_HttpMethod=PATCH` work-around, gives 204;
      anything else fails the route with 405. */
  function HandleUpdateRequest(requestMethod: VertxHttpMethod, httpMethodParam: Option<string>): (r: UpdateResult)
    ensures r.UpdateAccepted? <==> requestMethod == PATCH || httpMethodParam == Some("PATCH")
    ensures r.UpdateAccepted? ==> r.status == HTTP_NO_CONTENT
    ensures r.RoutingFailed? ==> r.status == HTTP_BAD_METHOD
  {
    if requestMethod != PATCH && httpMethodParam != Some("PATCH") then RoutingFailed(HTTP_BAD_METHOD)
    else UpdateAccepted(HTTP_NO_CONTENT)
  }
}
