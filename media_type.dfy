/**
 * The codec registry of the sink element: the closed set of media types it
 * negotiates, and the parse from a caps structure name into one of them.
 *
 * The source derives the parser with strum's `EnumString`, every variant
 * marked `ascii_case_insensitive`: the input is compared, arm by arm in
 * declaration order, with each alias using ASCII case folding, and the
 * first match wins. Any other input gives `VariantNotFound`.
 */
module MediaTypes {
  import opened Wrappers

  /** The encodings the sink can carry. */
  datatype MediaType = H264 | VP8 | VP9 | Opus | G722 | Mulaw | Alaw

  /** strum's parse error; it carries no payload. */
  datatype ParseError = VariantNotFound

  /** The `serialize` aliases of every variant, in declaration order. */
  const Aliases: seq<(MediaType, string)> := [
    (H264, "video/H264"), (H264, "video/x-h264"),
    (VP8, "video/VP8"),
    (VP9, "video/VP9"),
    (Opus, "audio/opus"), (Opus, "audio/x-opus"),
    (G722, "audio/G722"),
    (Mulaw, "audio/PCMU"), (Mulaw, "audio/x-mulaw"),
    (Alaw, "audio/PCMA"), (Alaw, "audio/alaw")
  ]

  /** ASCII lower-casing of one character; every other character is kept. */
  function ToAsciiLowercase(c: char): (r: char)
    ensures !('A' <= r <= 'Z')
    ensures 'A' <= c <= 'Z' ==> 'a' <= r <= 'z' && r as int - 'a' as int == c as int - 'A' as int
    ensures !('A' <= c <= 'Z') ==> r == c
  {
    if 'A' <= c <= 'Z' then (c as int + 32) as char else c
  }

  /** `str::to_ascii_lowercase`: every character lowered, the length kept. */
  function AsciiLower(s: string): (r: string)
    ensures |r| == |s|
    ensures forall i :: 0 <= i < |s| ==> r[i] == ToAsciiLowercase(s[i])
  {
    if s == [] then [] else [ToAsciiLowercase(s[0])] + AsciiLower(s[1..])
  }

  /**
   * `str::eq_ignore_ascii_case`: equal length and equal position by position
   * after ASCII lower-casing. On strings without upper-case letters it is
   * plain equality.
   */
  function EqIgnoreAsciiCase(a: string, b: string): (r: bool)
    ensures a == b ==> r
    ensures NoAsciiUppercase(a) && NoAsciiUppercase(b) ==> (r <==> a == b)
  {
    |a| == |b| && forall i :: 0 <= i < |a| ==> ToAsciiLowercase(a[i]) == ToAsciiLowercase(b[i])
  }

  /** The comparison is what its library documents: equality of the two strings lowered by `to_ascii_lowercase`. */
  lemma EqIgnoreAsciiCaseLowered(a: string, b: string)
    ensures EqIgnoreAsciiCase(a, b) <==> AsciiLower(a) == AsciiLower(b)
  {
    if AsciiLower(a) == AsciiLower(b) {
      assert forall i :: 0 <= i < |a| ==> AsciiLower(a)[i] == AsciiLower(b)[i];
    }
  }

  /** Lowering one character of a string keeps it equal to the original ignoring case. */
  lemma CaseChangeIgnored(a: string, i: nat)
    requires i < |a|
    ensures EqIgnoreAsciiCase(a, a[i := ToAsciiLowercase(a[i])])
  {
    EqIgnoreAsciiCaseLowered(a, a[i := ToAsciiLowercase(a[i])]);
    assert AsciiLower(a) == AsciiLower(a[i := ToAsciiLowercase(a[i])]);
  }

  /** No character of `s` is an ASCII upper-case letter. */
  predicate NoAsciiUppercase(s: string)
  {
    forall i :: 0 <= i < |s| ==> !('A' <= s[i] <= 'Z')
  }

  /**
   * The match strum derives: tries the aliases of `table` in order and the
   * first that matches `s` decides; `VariantNotFound` when none does.
   */
  function Lookup(s: string, table: seq<(MediaType, string)>): Result<MediaType, ParseError>
  {
    if table == [] then Err(VariantNotFound)
    else if EqIgnoreAsciiCase(s, table[0].1) then Ok(table[0].0)
    else Lookup(s, table[1..])
  }

  /** A lookup fails exactly when no alias of the table matches, and succeeds with the variant of the first alias that does. */
  lemma {:induction false} LookupFirstMatch(s: string, table: seq<(MediaType, string)>)
    ensures Lookup(s, table).Err? <==> forall j :: 0 <= j < |table| ==> !EqIgnoreAsciiCase(s, table[j].1)
    ensures Lookup(s, table).Ok? ==>
      exists i :: 0 <= i < |table| && table[i].0 == Lookup(s, table).value && EqIgnoreAsciiCase(s, table[i].1)
                  && forall j :: 0 <= j < i ==> !EqIgnoreAsciiCase(s, table[j].1)
  {
    if table != [] && !EqIgnoreAsciiCase(s, table[0].1) {
      LookupFirstMatch(s, table[1..]);
      var r := Lookup(s, table[1..]);
      forall j | 1 <= j < |table| ensures table[j] == table[1..][j - 1] { }
      if r.Ok? {
        var k :| 0 <= k < |table| - 1 && table[1..][k].0 == r.value && EqIgnoreAsciiCase(s, table[1..][k].1)
                  && forall j :: 0 <= j < k ==> !EqIgnoreAsciiCase(s, table[1..][j].1);
        assert table[k + 1].0 == r.value && EqIgnoreAsciiCase(s, table[k + 1].1);
      }
    }
  }

  /** `MediaType::from_str`; its contract is stated by the lemmas `FromStrSound`, `FromStrFails` and `FromStrComplete` below. */
  function FromStr(s: string): Result<MediaType, ParseError>
  {
    Lookup(s, Aliases)
  }

  /** Inputs equal ignoring ASCII case match the same strings. */
  lemma EqIgnoreAsciiCaseSubst(a: string, b: string, c: string)
    requires EqIgnoreAsciiCase(a, b)
    ensures EqIgnoreAsciiCase(a, c) == EqIgnoreAsciiCase(b, c)
  {
    if |a| == |c| {
      assert forall i :: 0 <= i < |a| ==> ToAsciiLowercase(a[i]) == ToAsciiLowercase(b[i]);
    }
  }

  /** Lookup sees its input only up to ASCII case. */
  lemma {:induction false} LookupIgnoresCase(s: string, s': string, table: seq<(MediaType, string)>)
    requires EqIgnoreAsciiCase(s, s')
    ensures Lookup(s, table) == Lookup(s', table)
  {
    if table != [] {
      EqIgnoreAsciiCaseSubst(s, s', table[0].1);
      LookupIgnoresCase(s, s', table[1..]);
    }
  }

  /**
   * A proof device, not part of the parser: the variant an input can only
   * match, decided by its length and its first, seventh and last characters
   * after lower-casing. These four facts tell the eleven aliases apart.
   */
  function Classify(s: string): Option<MediaType>
  {
    if |s| < 7 then None
    else
      var key := (|s|, ToAsciiLowercase(s[0]), ToAsciiLowercase(s[6]), ToAsciiLowercase(s[|s| - 1]));
      if key == (10, 'v', 'h', '4') || key == (12, 'v', 'x', '4') then Some(H264)
      else if key == (9, 'v', 'v', '8') then Some(VP8)
      else if key == (9, 'v', 'v', '9') then Some(VP9)
      else if key == (10, 'a', 'o', 's') || key == (12, 'a', 'x', 's') then Some(Opus)
      else if key == (10, 'a', 'g', '2') then Some(G722)
      else if key == (10, 'a', 'p', 'u') || key == (13, 'a', 'x', 'w') then Some(Mulaw)
      else if key == (10, 'a', 'p', 'a') || key == (10, 'a', 'a', 'w') then Some(Alaw)
      else None
  }

  lemma ClassifyIgnoresCase(a: string, b: string)
    requires EqIgnoreAsciiCase(a, b)
    ensures Classify(a) == Classify(b)
  {
    if |a| >= 7 {
      assert ToAsciiLowercase(a[0]) == ToAsciiLowercase(b[0]);
      assert ToAsciiLowercase(a[6]) == ToAsciiLowercase(b[6]);
      assert ToAsciiLowercase(a[|a| - 1]) == ToAsciiLowercase(b[|b| - 1]);
    }
  }

  /** Every alias is classified as its own variant. */
  lemma ClassifyAlias(i: nat)
    requires i < |Aliases|
    ensures Classify(Aliases[i].1) == Some(Aliases[i].0)
  {
    match i
    case 0 => assert Aliases[0] == (H264, "video/H264");
    case 1 => assert Aliases[1] == (H264, "video/x-h264");
    case 2 => assert Aliases[2] == (VP8, "video/VP8");
    case 3 => assert Aliases[3] == (VP9, "video/VP9");
    case 4 => assert Aliases[4] == (Opus, "audio/opus");
    case 5 => assert Aliases[5] == (Opus, "audio/x-opus");
    case 6 => assert Aliases[6] == (G722, "audio/G722");
    case 7 => assert Aliases[7] == (Mulaw, "audio/PCMU");
    case 8 => assert Aliases[8] == (Mulaw, "audio/x-mulaw");
    case 9 => assert Aliases[9] == (Alaw, "audio/PCMA");
    case 10 => assert Aliases[10] == (Alaw, "audio/alaw");
  }

  /** No two aliases of different variants match each other, so the parse does not depend on the order of the arms. */
  lemma AliasesDisjoint(i: nat, j: nat)
    requires i < |Aliases| && j < |Aliases| && Aliases[i].0 != Aliases[j].0
    ensures !EqIgnoreAsciiCase(Aliases[i].1, Aliases[j].1)
  {
    if EqIgnoreAsciiCase(Aliases[i].1, Aliases[j].1) {
      ClassifyAlias(i);
      ClassifyAlias(j);
      ClassifyIgnoresCase(Aliases[i].1, Aliases[j].1);
    }
  }

  /** Two inputs that differ only in ASCII case parse alike. */
  lemma FromStrIgnoresCase(s: string, s': string)
    requires EqIgnoreAsciiCase(s, s')
    ensures FromStr(s) == FromStr(s')
  {
    LookupIgnoresCase(s, s', Aliases);
  }

  /** Parsing matches an alias up to ASCII case: the completeness half. */
  lemma FromStrComplete(s: string, i: nat)
    requires i < |Aliases| && EqIgnoreAsciiCase(s, Aliases[i].1)
    ensures FromStr(s) == Ok(Aliases[i].0)
  {
    LookupFirstMatch(s, Aliases);
    var k :| 0 <= k < |Aliases| && Aliases[k].0 == FromStr(s).value && EqIgnoreAsciiCase(s, Aliases[k].1)
              && forall j :: 0 <= j < k ==> !EqIgnoreAsciiCase(s, Aliases[j].1);
    if Aliases[k].0 != Aliases[i].0 {
      EqIgnoreAsciiCaseSubst(Aliases[k].1, s, Aliases[i].1);
      AliasesDisjoint(k, i);
    }
  }

  /** Each of the aliases parses to the variant it is declared on. */
  lemma FromStrAlias(i: nat)
    requires i < |Aliases|
    ensures FromStr(Aliases[i].1) == Ok(Aliases[i].0)
  {
    FromStrComplete(Aliases[i].1, i);
  }

  /** The soundness half: a successful parse names a variant one of whose aliases matches. */
  lemma FromStrSound(s: string, t: MediaType)
    requires FromStr(s) == Ok(t)
    ensures exists i :: 0 <= i < |Aliases| && Aliases[i].0 == t && EqIgnoreAsciiCase(s, Aliases[i].1)
  {
    LookupFirstMatch(s, Aliases);
  }

  /** Every string that matches no alias fails, and only those. */
  lemma FromStrFails(s: string)
    ensures FromStr(s).Err? <==> forall i :: 0 <= i < |Aliases| ==> !EqIgnoreAsciiCase(s, Aliases[i].1)
  {
    LookupFirstMatch(s, Aliases);
  }

  /** An input the classifier rejects, such as one of a length no alias has, fails to parse. */
  lemma FromStrUnclassified(s: string)
    requires Classify(s).None?
    ensures FromStr(s) == Err(VariantNotFound)
  {
    forall i | 0 <= i < |Aliases| ensures !EqIgnoreAsciiCase(s, Aliases[i].1) {
      if EqIgnoreAsciiCase(s, Aliases[i].1) {
        ClassifyAlias(i);
        ClassifyIgnoresCase(s, Aliases[i].1);
      }
    }
    FromStrFails(s);
    assert FromStr(s).error.VariantNotFound?;
  }

  /** Upper-case spellings of the aliases parse as well. */
  lemma FromStrUpperCase()
    ensures FromStr("VIDEO/X-H264") == Ok(H264)
  {
    FromStrComplete("VIDEO/X-H264", 1);
  }

  /** The common name of the VP8 encoding is not one of the aliases. */
  lemma FromStrUnknown()
    ensures FromStr("video/x-vp8") == Err(VariantNotFound)
  {
    FromStrUnclassified("video/x-vp8");
  }
}
