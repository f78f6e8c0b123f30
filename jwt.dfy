/**
 * `parse_jwt` and `decode_jwt_part`: a JSON Web Token is split on `.` into header,
 * payload and signature; header and payload are base64url text (the URL and filename
 * safe alphabet of section 5 of RFC 4648, with its padding left off), which is padded
 * with `=` to whole four-character groups (section 3.2), mapped to the standard
 * alphabet and handed to the base64 decoder and the JSON parser.
 */
module Jwt {
  import opened Wrappers
  import opened Strings
  import opened Json
  import opened Foreign

  const EmptyToken := "Empty JWT token"
  // The error for a token that does not split into exactly three parts.
  const BadFormat := "Invalid JWT format." + " Expected 3 parts separated by dots."
  const HeaderFailed := "Failed to decode JWT header: "
  const PayloadFailed := "Failed to decode JWT payload: "
  const OutputFailed := "Failed to format JWT output: "
  const BadBase64 := "Invalid base64 encoding: "
  const BadUtf8 := "Invalid UTF-8 in JWT part: "
  const BadJson := "Invalid JSON in JWT part: "
  const SignatureLabel := "Signature (base64): "

  /** The number of `=` that completes the last four-character group; being below four,
      it is the least such number. */
  function PadCount(n: nat): (k: nat)
    ensures k < 4 && (n + k) % 4 == 0
  {
    (4 - n % 4) % 4
  }

  /** `encoded` followed by the fewest `=` (none to three) that make its length a
      multiple of four: the length is the least multiple of four at or above
      `|encoded|`. */
  function Padded(encoded: string): (r: string)
    ensures |r| % 4 == 0 && |encoded| <= |r| < |encoded| + 4
    ensures r[..|encoded|] == encoded
    ensures forall k | |encoded| <= k < |r| :: r[k] == '='
  {
    var r := encoded + Repeat('=', PadCount(|encoded|));
    assert r[..|encoded|] == encoded;
    r
  }

  /** The loop of `decode_jwt_part` that pushes `=` until the length is a multiple of
      four. */
  method PadBase64(encoded: string) returns (padded: string)
    ensures padded == Padded(encoded)
  {
    padded := encoded;
    while |padded| % 4 != 0
      invariant |encoded| <= |padded| <= |Padded(encoded)|
      invariant padded == Padded(encoded)[..|padded|]
      decreases |Padded(encoded)| - |padded|
    {
      ghost var target := Padded(encoded);
      assert |padded| < |target|;
      assert target[..|padded| + 1] == target[..|padded|] + [target[|padded|]];
      padded := padded + "=";
    }
    assert |padded| == |Padded(encoded)|;
  }

  /** `padded.replace('-', "+").replace('_', "/")`. */
  function ToStandardAlphabet(s: string): string {
    ReplaceChar(ReplaceChar(s, '-', '+'), '_', '/')
  }

  /** The two replacements map `-` to `+` and `_` to `/`, character by character, and
      keep every other character; none of `-` and `_` is left. */
  lemma ToStandardAlphabetMaps(s: string)
    ensures |ToStandardAlphabet(s)| == |s|
    ensures forall k | 0 <= k < |s| ::
      ToStandardAlphabet(s)[k] == (if s[k] == '-' then '+' else if s[k] == '_' then '/' else s[k])
    ensures '-' !in ToStandardAlphabet(s) && '_' !in ToStandardAlphabet(s)
  {
    var t := ToStandardAlphabet(s);
    var m := ReplaceChar(s, '-', '+');
    assert forall k | 0 <= k < |s| :: m[k] == (if s[k] == '-' then '+' else s[k]);
    assert forall k | 0 <= k < |t| :: t[k] != '-' && t[k] != '_';
  }

  /** What `decode_jwt_part` returns for one part of a token. */
  function DecodeJwtPartSpec(encoded: string, lib: Library): Result<Value> {
    match lib.base64Decode(ToStandardAlphabet(Padded(encoded)))
    case Err(e) => Err(BadBase64 + e)
    case Ok(bytes) =>
      match lib.utf8Decode(bytes)
      case Err(e) => Err(BadUtf8 + e)
      case Ok(text) =>
        match lib.parseJson(text)
        case Err(e) => Err(BadJson + e)
        case Ok(v) => Ok(v)
  }

  /** `decode_jwt_part`. */
  method DecodeJwtPart(encoded: string, lib: Library) returns (r: Result<Value>)
    ensures r == DecodeJwtPartSpec(encoded, lib)
  {
    var padded := PadBase64(encoded);
    var standardBase64 := ToStandardAlphabet(padded);
    match lib.base64Decode(standardBase64)
    case Err(e) => r := Err(BadBase64 + e);
    case Ok(decodedBytes) =>
      match lib.utf8Decode(decodedBytes)
      case Err(e) => r := Err(BadUtf8 + e);
      case Ok(decodedString) =>
        match lib.parseJson(decodedString)
        case Err(e) => r := Err(BadJson + e);
        case Ok(jsonValue) => r := Ok(jsonValue);
  }

  /** The JSON object `parse_jwt` prints: the decoded header and payload, the signature
      as a labelled string and the three raw parts. Keys are in the sorted order of a
      `serde_json::Map`. */
  function TokenObject(header: Value, payload: Value, parts: seq<string>): (r: Value)
    requires |parts| == 3
    ensures r.Object? && |r.members| == 4
    ensures r.members[0] == Member("header", header) && r.members[1] == Member("payload", payload)
    ensures r.members[2].key == "signature" && r.members[3].key == "token_parts"
    ensures var ps := r.members[3].value;
      ps.Object? && |ps.members| == 3
      && forall k | 0 <= k < 3 :: ps.members[k].value == String(parts[k])
  {
    Object([
      Member("header", header),
      Member("payload", payload),
      Member("signature", String(SignatureLabel + parts[2])),
      Member("token_parts", Object([
        Member("header", String(parts[0])),
        Member("payload", String(parts[1])),
        Member("signature", String(parts[2]))]))])
  }

  /** What `parse_jwt` returns for `token`. */
  function ParseJwtSpec(token: string, lib: Library): Result<string> {
    var token := Trim(token);
    if token == [] then Err(EmptyToken)
    else
      var parts := Split(token, '.');
      if |parts| != 3 then Err(BadFormat)
      else
        match DecodeJwtPartSpec(parts[0], lib)
        case Err(e) => Err(HeaderFailed + e)
        case Ok(header) =>
          match DecodeJwtPartSpec(parts[1], lib)
          case Err(e) => Err(PayloadFailed + e)
          case Ok(payload) =>
            match lib.prettyJson(TokenObject(header, payload, parts))
            case Err(e) => Err(OutputFailed + e)
            case Ok(formatted) => Ok(formatted)
  }

  /** `parse_jwt`. */
  method ParseJwt(token: string, lib: Library) returns (r: Result<string>)
    ensures r == ParseJwtSpec(token, lib)
  {
    var token := Trim(token);
    if token == [] {
      return Err(EmptyToken);
    }
    var parts := Split(token, '.');
    if |parts| != 3 {
      return Err(BadFormat);
    }
    var header := DecodeJwtPart(parts[0], lib);
    if header.Err? {
      return Err(HeaderFailed + header.error);
    }
    var payload := DecodeJwtPart(parts[1], lib);
    if payload.Err? {
      return Err(PayloadFailed + payload.error);
    }
    match lib.prettyJson(TokenObject(header.value, payload.value, parts))
    case Err(e) => r := Err(OutputFailed + e);
    case Ok(formatted) => r := Ok(formatted);
  }

  /** A token is rejected as badly formed exactly when, trimmed, it is not empty and does
      not hold exactly two dots. */
  lemma BadFormatIff(token: string, lib: Library)
    ensures ParseJwtSpec(token, lib) == Err(BadFormat)
      <==> Trim(token) != [] && Count(Trim(token), '.') != 2
  {
    var t := Trim(token);
    SplitCount(t, '.');
    if t != [] && Count(t, '.') == 2 {
      var r := ParseJwtSpec(token, lib);
      assert BadFormat[0] == 'I';
      if r.Err? {
        assert r.error[0] == 'F';
      }
    }
  }

  /** Every failure is one of the two fixed messages or carries the stage it happened
      at: the header, the payload or printing the result. */
  lemma ParseJwtErrors(token: string, lib: Library)
    ensures var r := ParseJwtSpec(token, lib);
      r.Err? ==>
        r.error == EmptyToken || r.error == BadFormat
        || HeaderFailed <= r.error || PayloadFailed <= r.error || OutputFailed <= r.error
  {
  }

  /** A token is rejected as empty exactly when it is all whitespace. */
  lemma EmptyTokenIff(token: string, lib: Library)
    ensures ParseJwtSpec(token, lib) == Err(EmptyToken)
      <==> forall k | 0 <= k < |token| :: IsWhitespace(token[k])
  {
    var t := Trim(token);
    var r := ParseJwtSpec(token, lib);
    if t != [] && r.Err? && |Split(t, '.')| == 3 {
      assert r.error[0] == 'F';
    }
  }

  /** Once the token has exactly two dots, its three parts are the pieces between them:
      joined back with dots they are the trimmed token, and none holds a dot. */
  lemma PartsRebuildToken(token: string)
    requires Count(Trim(token), '.') == 2
    ensures var parts := Split(Trim(token), '.');
      |parts| == 3 && parts[0] + "." + parts[1] + "." + parts[2] == Trim(token)
      && '.' !in parts[0] && '.' !in parts[1] && '.' !in parts[2]
  {
    var t := Trim(token);
    var parts := Split(t, '.');
    SplitCount(t, '.');
    SplitJoin(t, '.');
    JoinThree(parts, '.');
  }
}
