/** `ImageValidator`: the checks an uploaded image, given as a base64 data URI, must pass. Base64
    decoding and image parsing are library calls and are parameters here. */
module ImageValidation {
  import opened Wrappers
  import opened Seqs
  import opened Text

  /** `ALLOWED_MIME_TYPES`, in its key order. */
  const AllowedMimeTypes: seq<string> := ["image/jpeg", "image/png", "image/gif"]

  /** `MAX_SIZE`: five mebibytes. */
  const MaxSize: nat := 5 * 1024 * 1024
  const MaxWidth: nat := 4000
  const MaxHeight: nat := 4000

  const EmptyMessage := "Imagem vazia"
  const BadFormatMessage := "Formato base64 inválido"
  const BadBase64Message := "Dados base64 inválidos"
  const ProcessingPrefix := "Erro ao processar imagem: "

  function MimeNotAllowedMessage(): string {
    "Tipo de imagem não permitido. Tipos permitidos: " + Join(AllowedMimeTypes, ", ")
  }

  /** `MAX_SIZE / 1024 / 1024` is the float 5.0. */
  function TooLargeMessage(): string {
    "Imagem muito grande. Tamanho máximo: " + NatToString(MaxSize / 1024 / 1024) + ".0MB"
  }

  function TooWideMessage(): string {
    "Dimensões da imagem muito grandes. Máximo: " + NatToString(MaxWidth) + "x" + NatToString(MaxHeight)
  }

  // ---------------------------------------------------------------- the data-URI pattern

  const UriPrefix := "data:image/"
  const Base64Marker := ";base64,"

  predicate IsLowerAscii(c: char) { 'a' <= c <= 'z' }

  /** The two groups of a match of `data:(image/[a-z]+);base64,(.+)`. */
  datatype DataUri = DataUri(mimeType: string, data: string)

  /** `re.match(r'data:(image/[a-z]+);base64,(.+)', s)`: anchored at the start; the subtype runs
      over the lower-case letters and must be followed by `;base64,`; the data is every character
      up to the first newline (`.` does not match one) and must not be empty. */
  function MatchDataUri(s: string): Option<DataUri> {
    if !StartsWith(s, UriPrefix) then None
    else
      var rest := s[|UriPrefix|..];
      var subtype := TakeWhile(rest, IsLowerAscii);
      var after := rest[|subtype|..];
      if |subtype| == 0 || !StartsWith(after, Base64Marker) then None
      else
        var data := BeforeFirst(after[|Base64Marker|..], '\n');
        if |data| == 0 then None else Some(DataUri("image/" + subtype, data))
  }

  lemma SplitAtPrefix(s: string, prefix: string)
    requires StartsWith(s, prefix)
    ensures s == prefix + s[|prefix|..]
  {
  }

  lemma PrefixOfConcat(prefix: string, rest: string)
    ensures StartsWith(prefix + rest, prefix) && (prefix + rest)[|prefix|..] == rest
  {
  }

  /** A match recovers its text: the string is the prefix, a non-empty lower-case subtype, the
      marker and non-empty single-line data, followed by nothing or by a newline. */
  lemma MatchIsSound(s: string)
    requires MatchDataUri(s).Some?
    ensures var m := MatchDataUri(s).value;
            exists subtype, tail ::
              && m.mimeType == "image/" + subtype
              && |subtype| > 0 && (forall i :: 0 <= i < |subtype| ==> IsLowerAscii(subtype[i]))
              && |m.data| > 0 && '\n' !in m.data
              && (tail == [] || tail[0] == '\n')
              && s == UriPrefix + (subtype + (Base64Marker + (m.data + tail)))
  {
    SplitAtPrefix(s, UriPrefix);
    var rest := s[|UriPrefix|..];
    var subtype := TakeWhile(rest, IsLowerAscii);
    var after := rest[|subtype|..];
    assert rest == subtype + after;
    SplitAtPrefix(after, Base64Marker);
    var payload := after[|Base64Marker|..];
    var data := BeforeFirst(payload, '\n');
    var tail := payload[|data|..];
    assert payload == data + tail;
  }

  /** Every string of that shape matches, with exactly its subtype and data as the groups. */
  lemma MatchIsComplete(subtype: string, data: string, tail: string)
    requires |subtype| > 0 && forall i :: 0 <= i < |subtype| ==> IsLowerAscii(subtype[i])
    requires |data| > 0 && '\n' !in data
    requires tail == [] || tail[0] == '\n'
    ensures MatchDataUri(UriPrefix + (subtype + (Base64Marker + (data + tail))))
            == Some(DataUri("image/" + subtype, data))
  {
    var payload := data + tail;
    var after := Base64Marker + payload;
    var rest := subtype + after;
    PrefixOfConcat(UriPrefix, rest);
    assert rest[|subtype|] == ';';
    TakeWhileUnique(rest, IsLowerAscii, |subtype|);
    PrefixOfConcat(subtype, after);
    PrefixOfConcat(Base64Marker, payload);
    forall i | 0 <= i < |data| ensures payload[i] != '\n' {
      assert payload[i] == data[i] && data[i] in data;
    }
    TakeWhileUnique(payload, c => c != '\n', |data|);
    PrefixOfConcat(data, tail);
  }

  // ---------------------------------------------------------------- the checks

  /** What `base64.b64decode` does with the data: bytes, a `binascii.Error`, or another exception. */
  datatype DecodeOutcome = Decoded(bytes: seq<bv8>) | InvalidBase64 | DecodeFailed(message: string)

  /** What `Image.open(...).size` does with the bytes: a width and height, or an exception. */
  datatype OpenOutcome = Opened(width: int, height: int) | OpenFailed(message: string)

  datatype ImageCodec = ImageCodec(b64decode: string -> DecodeOutcome, open: seq<bv8> -> OpenOutcome)

  /** The `(valid, error)` pair the validator returns. */
  datatype Verdict = Verdict(valid: bool, error: Option<string>)

  function Accept(): Verdict { Verdict(true, None) }
  function Reject(message: string): Verdict { Verdict(false, Some(message)) }

  /** Every check passes: a data URI of an allowed type whose data decodes to at most `MaxSize`
      bytes of an image at most `MaxWidth` by `MaxHeight`. */
  ghost predicate Acceptable(s: string, codec: ImageCodec) {
    && MatchDataUri(s).Some?
    && MatchDataUri(s).value.mimeType in AllowedMimeTypes
    && codec.b64decode(MatchDataUri(s).value.data).Decoded?
    && |codec.b64decode(MatchDataUri(s).value.data).bytes| <= MaxSize
    && codec.open(codec.b64decode(MatchDataUri(s).value.data).bytes).Opened?
    && codec.open(codec.b64decode(MatchDataUri(s).value.data).bytes).width <= MaxWidth
    && codec.open(codec.b64decode(MatchDataUri(s).value.data).bytes).height <= MaxHeight
  }

  /** `validate_base64_image`: the checks in order, the first failing one giving the message.
      The result is valid exactly when every check passes, and then carries no message. */
  function ValidateBase64Image(s: string, codec: ImageCodec): (v: Verdict)
    ensures v.valid <==> v.error.None?
    ensures s == "" ==> v == Reject(EmptyMessage)
    ensures s != "" && MatchDataUri(s).None? ==> v == Reject(BadFormatMessage)
    ensures MatchDataUri(s).Some? && MatchDataUri(s).value.mimeType !in AllowedMimeTypes ==>
              v == Reject(MimeNotAllowedMessage())
  {
    if s == "" then Reject(EmptyMessage)
    else match MatchDataUri(s)
      case None => Reject(BadFormatMessage)
      case Some(m) =>
        if m.mimeType !in AllowedMimeTypes then Reject(MimeNotAllowedMessage())
        else match codec.b64decode(m.data)
          case InvalidBase64 => Reject(BadBase64Message)
          case DecodeFailed(e) => Reject(ProcessingPrefix + e)
          case Decoded(bytes) =>
            if |bytes| > MaxSize then Reject(TooLargeMessage())
            else match codec.open(bytes)
              case OpenFailed(e) => Reject(ProcessingPrefix + e)
              case Opened(width, height) =>
                if width > MaxWidth || height > MaxHeight then Reject(TooWideMessage())
                else Accept()
  }

  /** The validator accepts exactly the strings every check passes. */
  lemma ValidIffAcceptable(s: string, codec: ImageCodec)
    ensures ValidateBase64Image(s, codec).valid <==> Acceptable(s, codec)
  {
  }

  /** The messages of the checks after the MIME type: undecodable data, an oversized payload,
      an oversized image. */
  lemma LimitMessages(s: string, codec: ImageCodec)
    requires MatchDataUri(s).Some? && MatchDataUri(s).value.mimeType in AllowedMimeTypes
    ensures var decoded := codec.b64decode(MatchDataUri(s).value.data);
            && (decoded.InvalidBase64? ==> ValidateBase64Image(s, codec) == Reject(BadBase64Message))
            && (decoded.Decoded? && |decoded.bytes| > MaxSize ==>
                  ValidateBase64Image(s, codec) == Reject(TooLargeMessage()))
            && (decoded.Decoded? && |decoded.bytes| <= MaxSize && codec.open(decoded.bytes).Opened?
                && (codec.open(decoded.bytes).width > MaxWidth || codec.open(decoded.bytes).height > MaxHeight) ==>
                  ValidateBase64Image(s, codec) == Reject(TooWideMessage()))
  {
  }

  /** The size message spells out the limit as 5.0MB. */
  lemma TooLargeMessageText()
    ensures TooLargeMessage() == "Imagem muito grande. Tamanho máximo: 5.0MB"
  {
    assert NatToString(MaxSize / 1024 / 1024) == "5";
  }

  /** The dimension message spells out the limits as 4000x4000. */
  lemma TooWideMessageText()
    ensures TooWideMessage() == "Dimensões da imagem muito grandes. Máximo: 4000x4000"
  {
    DimensionLimitDigits();
  }

  lemma DimensionLimitDigits()
    ensures NatToString(MaxWidth) == "4000" && NatToString(MaxHeight) == "4000"
  {
    assert NatToString(40) == "40";
    assert NatToString(400) == "400";
  }

  lemma ListedSubtypes(subtype: string)
    requires "image/" + subtype in AllowedMimeTypes
    ensures subtype == "jpeg" || subtype == "png" || subtype == "gif"
  {
    var mime := "image/" + subtype;
    assert mime[6..] == subtype;
  }

  /** Only the three listed types pass, whatever the data holds. */
  lemma OnlyListedTypesPass(subtype: string, data: string, codec: ImageCodec)
    requires |subtype| > 0 && forall i :: 0 <= i < |subtype| ==> IsLowerAscii(subtype[i])
    requires |data| > 0 && '\n' !in data
    requires ValidateBase64Image(UriPrefix + (subtype + (Base64Marker + data)), codec).valid
    ensures subtype == "jpeg" || subtype == "png" || subtype == "gif"
  {
    MatchIsComplete(subtype, data, []);
    assert data + [] == data;
    ListedSubtypes(subtype);
  }

  function Invalid(codec: ImageCodec): string -> bool {
    (s: string) => !ValidateBase64Image(s, codec).valid
  }

  /** `f"Imagem {i+1}: {error}"`. */
  function IndexedMessage(i: nat, error: string): string {
    "Imagem " + NatToString(i + 1) + ": " + error
  }

  lemma ValidPrefixGrows(images: seq<string>, codec: ImageCodec, i: nat)
    requires i < |images| && ValidateBase64Image(images[i], codec).valid
    requires forall j :: 0 <= j < i ==> ValidateBase64Image(images[j], codec).valid
    ensures forall j :: 0 <= j < i + 1 ==> ValidateBase64Image(images[j], codec).valid
  {
  }

  /** `validate_images`: the first invalid image, numbered from one, is reported with its
      message; with no invalid image (in particular with none at all) the result is valid. */
  method ValidateImages(images: seq<string>, codec: ImageCodec) returns (v: Verdict)
    ensures v.valid <==> forall i :: 0 <= i < |images| ==> ValidateBase64Image(images[i], codec).valid
    ensures v.valid <==> v.error.None?
    ensures match FirstIndex(images, Invalid(codec))
            case None => v == Accept()
            case Some(i) => v == Reject(IndexedMessage(i, ValidateBase64Image(images[i], codec).error.value))
  {
    if images == [] {
      return Accept();
    }
    for i := 0 to |images|
      invariant forall j :: 0 <= j < i ==> ValidateBase64Image(images[j], codec).valid
    {
      var result := ValidateBase64Image(images[i], codec);
      if !result.valid {
        FirstIndexAt(images, Invalid(codec), i);
        return Reject(IndexedMessage(i, result.error.value));
      }
      ValidPrefixGrows(images, codec, i);
    }
    return Accept();
  }
}
