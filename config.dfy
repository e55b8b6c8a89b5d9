/**
 * The application settings the core reads, and `cors_origins_list`: the
 * comma-separated `allowed_origins` split on every comma, each piece
 * stripped of surrounding whitespace.
 */
module Config {

  /** The settings values the modelled code consults; each comes from the environment. */
  datatype Settings = Settings(
    googleCloudProject: string,
    databaseType: string,
    stripeApiKey: string,
    stripeWebhookSecret: string,
    allowedOrigins: string,
    adminApiKey: string)

  const DEFAULT_GOOGLE_CLOUD_PROJECT: string := ""
  const DEFAULT_DATABASE_TYPE: string := "firestore"
  const DEFAULT_STRIPE_WEBHOOK_SECRET: string := ""
  /** The default origin list, written out origin by origin. */
  const DEFAULT_ALLOWED_ORIGINS: string :=
    "http://localhost:3000" + "," + "http://localhost:4173" + "," + "http://127.0.0.1:4173" + ","
    + "http://localhost:5173" + "," + "http://127.0.0.1:5173"

  /** The settings when only the required keys are set. */
  function DefaultSettings(stripeApiKey: string, adminApiKey: string): Settings {
    Settings(DEFAULT_GOOGLE_CLOUD_PROJECT, DEFAULT_DATABASE_TYPE, stripeApiKey, DEFAULT_STRIPE_WEBHOOK_SECRET,
      DEFAULT_ALLOWED_ORIGINS, adminApiKey)
  }

  const SEPARATOR: char := ','

  /** `str.isspace()` for one character: the characters `str.strip()` removes. */
  predicate IsSpace(c: char) {
    || c == ' ' || c == '\t' || c == '\n' || c == '\r'
    || c == '\U{000B}' || c == '\U{000C}'
    || ('\U{001C}' <= c <= '\U{001F}')
    || c == '\U{0085}' || c == '\U{00A0}' || c == '\U{1680}'
    || ('\U{2000}' <= c <= '\U{200A}')
    || c == '\U{2028}' || c == '\U{2029}' || c == '\U{202F}' || c == '\U{205F}' || c == '\U{3000}'
  }

  /** `text.split(",")`: the pieces between commas, empty ones included. */
  function Split(text: string): (parts: seq<string>)
    ensures |parts| >= 1
  {
    if text == [] then [""]
    else
      var rest := Split(text[1..]);
      if text[0] == SEPARATOR then [""] + rest
      else [[text[0]] + rest[0]] + rest[1..]
  }

  /** `",".join(parts)`. */
  function Join(parts: seq<string>): string
    requires |parts| >= 1
  {
    if |parts| == 1 then parts[0] else parts[0] + [SEPARATOR] + Join(parts[1..])
  }

  /** The number of leading whitespace characters. */
  function LeadingSpaces(text: string): (n: nat)
    ensures n <= |text|
    ensures forall k :: 0 <= k < n ==> IsSpace(text[k])
    ensures n == |text| || !IsSpace(text[n])
  {
    if text != [] && IsSpace(text[0]) then 1 + LeadingSpaces(text[1..]) else 0
  }

  /** The number of trailing whitespace characters. */
  function TrailingSpaces(text: string): (n: nat)
    ensures n <= |text|
    ensures forall k :: |text| - n <= k < |text| ==> IsSpace(text[k])
    ensures n == |text| || !IsSpace(text[|text| - 1 - n])
  {
    if text != [] && IsSpace(text[|text| - 1]) then 1 + TrailingSpaces(text[..|text| - 1]) else 0
  }

  /**
   * `text.strip()`: the text without its leading and trailing whitespace.
   * The result is the middle of `text` after the leading whitespace,
   * everything after it is whitespace, and it neither begins nor ends with
   * whitespace.
   */
  function Strip(text: string): (r: string)
    ensures LeadingSpaces(text) + |r| <= |text|
    ensures r == text[LeadingSpaces(text)..LeadingSpaces(text) + |r|]
    ensures forall k :: LeadingSpaces(text) + |r| <= k < |text| ==> IsSpace(text[k])
    ensures r == [] || (!IsSpace(r[0]) && !IsSpace(r[|r| - 1]))
  {
    var lead := LeadingSpaces(text);
    var rest := text[lead..];
    var trail := TrailingSpaces(rest);
    var r := rest[..|rest| - trail];
    assert text[lead..lead + |r|] == r;
    assert r != [] ==> r[0] == text[lead];
    r
  }

  /** `Settings.cors_origins_list`. */
  function CorsOriginsList(allowedOrigins: string): (origins: seq<string>)
    ensures |origins| == |Split(allowedOrigins)|
    ensures |origins| == multiset(allowedOrigins)[SEPARATOR] + 1
    ensures forall i :: 0 <= i < |origins| ==> origins[i] == Strip(Split(allowedOrigins)[i])
    ensures forall i :: 0 <= i < |origins| ==> SEPARATOR !in origins[i]
    ensures forall i :: 0 <= i < |origins| ==>
      origins[i] == [] || (!IsSpace(origins[i][0]) && !IsSpace(origins[i][|origins[i]| - 1]))
  {
    var parts := Split(allowedOrigins);
    SplitCount(allowedOrigins);
    SplitNoSeparator(allowedOrigins);
    var origins := seq(|parts|, i requires 0 <= i < |parts| => Strip(parts[i]));
    forall i | 0 <= i < |origins| ensures SEPARATOR !in origins[i] {
      var r := origins[i];
      var j := LeadingSpaces(parts[i]);
      forall m | 0 <= m < |r| ensures r[m] != SEPARATOR {
        assert r[m] == parts[i][j + m];
      }
    }
    origins
  }

  // ----- properties of the split -----

  /** There is one piece more than there are commas. */
  lemma {:induction false} SplitCount(text: string)
    ensures |Split(text)| == multiset(text)[SEPARATOR] + 1
  {
    if text != [] {
      SplitCount(text[1..]);
      assert text == [text[0]] + text[1..];
      assert multiset(text) == multiset{text[0]} + multiset(text[1..]);
    }
  }

  /** No piece contains a comma. */
  lemma {:induction false} SplitNoSeparator(text: string)
    ensures forall i :: 0 <= i < |Split(text)| ==> SEPARATOR !in Split(text)[i]
  {
    if text != [] {
      SplitNoSeparator(text[1..]);
      var rest := Split(text[1..]);
      if text[0] != SEPARATOR {
        assert SEPARATOR !in [text[0]] + rest[0];
      }
    }
  }

  /** Joining the pieces with commas gives back the text. */
  lemma {:induction false} JoinSplit(text: string)
    ensures Join(Split(text)) == text
  {
    if text != [] {
      JoinSplit(text[1..]);
      var rest := Split(text[1..]);
      if text[0] == SEPARATOR {
        JoinCons("", rest);
      } else {
        JoinExtendHead(text[0], rest);
      }
      assert text == [text[0]] + text[1..];
    }
  }

  /** Joining after a new first piece puts that piece and a comma in front. */
  lemma JoinCons(head: string, parts: seq<string>)
    requires |parts| >= 1
    ensures Join([head] + parts) == head + [SEPARATOR] + Join(parts)
  {
    assert ([head] + parts)[1..] == parts;
  }

  /** Joining after growing the first piece at its front grows the joined text the same way. */
  lemma {:induction false} JoinExtendHead(c: char, parts: seq<string>)
    requires |parts| >= 1
    ensures Join([[c] + parts[0]] + parts[1..]) == [c] + Join(parts)
  {
    var grown := [[c] + parts[0]] + parts[1..];
    if |parts| > 1 {
      assert grown[1..] == parts[1..];
      assert Join(grown) == ([c] + parts[0]) + [SEPARATOR] + Join(parts[1..]);
    }
  }

  /** Splitting comma-free pieces joined by commas gives back the pieces. */
  lemma {:induction false} SplitJoin(parts: seq<string>)
    requires |parts| >= 1
    requires forall i :: 0 <= i < |parts| ==> SEPARATOR !in parts[i]
    ensures Split(Join(parts)) == parts
    decreases |parts|, |parts[0]|
  {
    if parts[0] != [] {
      var head := parts[0];
      var shorter := [head[1..]] + parts[1..];
      assert forall i :: 0 <= i < |shorter| ==> SEPARATOR !in shorter[i] by {
        forall i | 0 <= i < |shorter| ensures SEPARATOR !in shorter[i] {
          if i > 0 {
            assert shorter[i] == parts[i];
          }
        }
      }
      SplitJoin(shorter);
      var text := Join(parts);
      assert head[0] != SEPARATOR && head == [head[0]] + head[1..];
      if |parts| == 1 {
        assert text == [head[0]] + Join(shorter);
      } else {
        assert parts[1..] == shorter[1..];
        assert text == [head[0]] + Join(shorter);
      }
      assert text[1..] == Join(shorter);
    } else if |parts| > 1 {
      SplitJoin(parts[1..]);
      var text := Join(parts);
      assert text == [SEPARATOR] + Join(parts[1..]);
      assert text[1..] == Join(parts[1..]);
      assert parts == [""] + parts[1..];
    }
  }

  /** A text that neither begins nor ends with whitespace is its own strip. */
  lemma StripUnchanged(text: string)
    requires text != [] && !IsSpace(text[0]) && !IsSpace(text[|text| - 1])
    ensures Strip(text) == text
  {
    assert text[0..] == text;
    assert text[..|text| - 0] == text;
  }

  /** The five origins the default setting allows, one per entry. */
  const DEFAULT_ORIGINS: seq<string> :=
    ["http://localhost:3000", "http://localhost:4173", "http://127.0.0.1:4173", "http://localhost:5173", "http://127.0.0.1:5173"]

  lemma DefaultJoined()
    ensures DEFAULT_ALLOWED_ORIGINS == Join(DEFAULT_ORIGINS)
  {
    var d := DEFAULT_ORIGINS;
    assert Join(d[4..]) == d[4];
    assert Join(d[3..]) == d[3] + [SEPARATOR] + Join(d[4..]);
    assert Join(d[2..]) == d[2] + [SEPARATOR] + Join(d[3..]);
    assert Join(d[1..]) == d[1] + [SEPARATOR] + Join(d[2..]);
    assert Join(d) == d[0] + [SEPARATOR] + Join(d[1..]);
  }

  lemma DefaultOriginsCommaFree()
    ensures forall i :: 0 <= i < |DEFAULT_ORIGINS| ==> SEPARATOR !in DEFAULT_ORIGINS[i]
  {
  }

  /** With `allowed_origins` left at its default, the settings yield its five origins, in order and unaltered. */
  lemma DefaultOrigins(stripeApiKey: string, adminApiKey: string)
    ensures CorsOriginsList(DefaultSettings(stripeApiKey, adminApiKey).allowedOrigins) == DEFAULT_ORIGINS
  {
    DefaultJoined();
    OriginsOfJoined(DEFAULT_ALLOWED_ORIGINS);
  }

  lemma OriginsOfJoined(text: string)
    requires text == Join(DEFAULT_ORIGINS)
    ensures CorsOriginsList(text) == DEFAULT_ORIGINS
  {
    DefaultOriginsCommaFree();
    SplitJoin(DEFAULT_ORIGINS);
    OriginsOfParts(text);
  }

  lemma OriginsOfParts(text: string)
    requires Split(text) == DEFAULT_ORIGINS
    ensures CorsOriginsList(text) == DEFAULT_ORIGINS
  {
    var origins := CorsOriginsList(text);
    forall i | 0 <= i < |DEFAULT_ORIGINS| ensures origins[i] == DEFAULT_ORIGINS[i] {
      DefaultOriginUnchanged(i);
    }
  }

  lemma DefaultOriginUnchanged(i: nat)
    requires i < |DEFAULT_ORIGINS|
    ensures Strip(DEFAULT_ORIGINS[i]) == DEFAULT_ORIGINS[i]
  {
    var o := DEFAULT_ORIGINS[i];
    assert o[0] == 'h' && o[|o| - 1] in "03";
    StripUnchanged(o);
  }
}
