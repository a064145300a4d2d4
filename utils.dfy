/**
 * The helpers of utils.py that hold decisions: the emoji and disposal-advice
 * tables keyed by waste category, the confidence colour bands, and the checks
 * an uploaded image must pass.
 */
module Utils {
  import opened Ascii
  import opened Wrappers

  /** The five waste categories, as the lookup tables spell them. */
  const KnownCategories: set<string> := {"cardboard", "glass", "metal", "paper", "plastic"}

  const CardboardEmoji: string := "♻️"
  const MetalEmoji: string := "🔩"
  const PaperEmoji: string := "📄"
  const PlasticEmoji: string := "🥤"
  const GlassEmoji: string := "🍶"
  /** What any other waste type gets. */
  const TrashEmoji: string := "🗑️"

  const EmojiTable: map<string, string> :=
    map["cardboard" := CardboardEmoji, "metal" := MetalEmoji, "paper" := PaperEmoji,
        "plastic" := PlasticEmoji, "glass" := GlassEmoji]

  /** The emoji shown beside a predicted waste type; the lookup ignores letter case. */
  function WasteEmoji(wasteType: string): (r: string)
    ensures Lower(wasteType) == "cardboard" ==> r == CardboardEmoji
    ensures Lower(wasteType) == "metal" ==> r == MetalEmoji
    ensures Lower(wasteType) == "paper" ==> r == PaperEmoji
    ensures Lower(wasteType) == "plastic" ==> r == PlasticEmoji
    ensures Lower(wasteType) == "glass" ==> r == GlassEmoji
    ensures Lower(wasteType) !in KnownCategories ==> r == TrashEmoji
  {
    var key := Lower(wasteType);
    if key in EmojiTable then EmojiTable[key] else TrashEmoji
  }

  /** Inputs that differ only in letter case get the same emoji. */
  lemma WasteEmojiIgnoresCase(s: string, t: string)
    requires EqualIgnoringCase(s, t)
    ensures WasteEmoji(s) == WasteEmoji(t)
  {
    LowerDecidesCase(s, t);
  }

  /** The fallback emoji is shown exactly for the strings that name no category. */
  lemma TrashEmojiExactlyForUnknown(s: string)
    ensures WasteEmoji(s) == TrashEmoji <==> Lower(s) !in KnownCategories
  {
  }

  const CardboardAdvice: string :=
    "\n            <h4>♻️ Cardboard Disposal</h4>" + @"
            <p><strong>Recycling Instructions:</strong></p>
            <ul>
                <li>Remove all tape, labels, and staples</li>
                <li>Flatten boxes to save space</li>
                <li>Keep dry - wet cardboard can't be recycled</li>
                <li>Place in recycling bin or take to recycling center</li>
            </ul>
            <p><strong>Environmental Impact:</strong> Recycling cardboard saves trees and reduces landfill waste.</p>
        "

  const MetalAdvice: string :=
    "\n            <h4>🔩 Metal Disposal</h4>" + @"
            <p><strong>Recycling Instructions:</strong></p>
            <ul>
                <li>Clean containers to remove food residue</li>
                <li>Remove labels when possible</li>
                <li>Separate aluminum from steel if required</li>
                <li>Place in recycling bin or scrap metal collection</li>
            </ul>
            <p><strong>Environmental Impact:</strong> Metal recycling saves energy and natural resources significantly.</p>
        "

  const PaperAdvice: string :=
    "\n            <h4>📄 Paper Disposal</h4>" + @"
            <p><strong>Recycling Instructions:</strong></p>
            <ul>
                <li>Remove plastic windows from envelopes</li>
                <li>Keep paper clean and dry</li>
                <li>Separate different types (newspaper, office paper, etc.)</li>
                <li>Place in paper recycling bin</li>
            </ul>
            <p><strong>Environmental Impact:</strong> Paper recycling reduces deforestation and saves water.</p>
        "

  const PlasticAdvice: string :=
    "\n            <h4>🥤 Plastic Disposal</h4>" + @"
            <p><strong>Recycling Instructions:</strong></p>
            <ul>
                <li>Check recycling number (1-7) on container</li>
                <li>Rinse containers to remove food residue</li>
                <li>Remove caps and lids if required</li>
                <li>Place in appropriate recycling bin</li>
            </ul>
            <p><strong>Environmental Impact:</strong> Plastic recycling reduces ocean pollution and landfill waste.</p>
        "

  const GlassAdvice: string :=
    "\n            <h4>🍶 Glass Disposal</h4>" + @"
            <p><strong>Recycling Instructions:</strong></p>
            <ul>
                <li>Rinse containers to remove residue</li>
                <li>Remove metal lids and caps</li>
                <li>Separate by color if required (clear, brown, green)</li>
                <li>Place in glass recycling bin</li>
            </ul>
            <p><strong>Environmental Impact:</strong> Glass can be recycled infinitely without quality loss.</p>
        "

  const GeneralAdvice: string :=
    "\n        <h4>🗑️ General Waste Disposal</h4>" + @"
        <p>Please follow local waste disposal guidelines for proper handling.</p>
    "

  const AdviceTable: map<string, string> :=
    map["cardboard" := CardboardAdvice, "metal" := MetalAdvice, "paper" := PaperAdvice,
        "plastic" := PlasticAdvice, "glass" := GlassAdvice]

  /** The HTML disposal advice for a waste type; the lookup ignores letter case. */
  function DisposalRecommendations(wasteType: string): (r: string)
    ensures Lower(wasteType) == "cardboard" ==> r == CardboardAdvice
    ensures Lower(wasteType) == "metal" ==> r == MetalAdvice
    ensures Lower(wasteType) == "paper" ==> r == PaperAdvice
    ensures Lower(wasteType) == "plastic" ==> r == PlasticAdvice
    ensures Lower(wasteType) == "glass" ==> r == GlassAdvice
    ensures Lower(wasteType) !in KnownCategories ==> r == GeneralAdvice
  {
    var key := Lower(wasteType);
    if key in AdviceTable then AdviceTable[key] else GeneralAdvice
  }

  /** Inputs that differ only in letter case get the same advice. */
  lemma DisposalRecommendationsIgnoreCase(s: string, t: string)
    requires EqualIgnoringCase(s, t)
    ensures DisposalRecommendations(s) == DisposalRecommendations(t)
  {
    LowerDecidesCase(s, t);
  }

  /** The general advice is given exactly for the strings that name no category. */
  lemma GeneralAdviceExactlyForUnknown(s: string)
    ensures DisposalRecommendations(s) == GeneralAdvice <==> Lower(s) !in KnownCategories
  {
  }

  /** The confidence (a probability) at and above which the colour is green. */
  const HighConfidence: real := 0.8
  /** The confidence at and above which the colour is at least orange. */
  const MediumConfidence: real := 0.6

  /** The colour a confidence is shown in: three bands split at 0.6 and 0.8. */
  function ConfidenceColor(confidence: real): (r: string)
    ensures r == "green" <==> confidence >= HighConfidence
    ensures r == "orange" <==> MediumConfidence <= confidence < HighConfidence
    ensures r == "red" <==> confidence < MediumConfidence
  {
    if confidence >= HighConfidence then "green"
    else if confidence >= MediumConfidence then "orange"
    else "red"
  }

  /** The bands in increasing order of confidence. */
  function ColorRank(color: string): nat
  {
    if color == "green" then 2 else if color == "orange" then 1 else 0
  }

  /** A higher confidence never gets a lower colour. */
  lemma ConfidenceColorMonotone(c: real, d: real)
    requires c <= d
    ensures ColorRank(ConfidenceColor(c)) <= ColorRank(ConfidenceColor(d))
  {
  }

  /** What opening the upload as an image gives: its format, when PIL knows one, or the error. */
  datatype Decoding = Decoded(format: Option<string>) | DecodeError(message: string)

  /** An uploaded file: its size in bytes when it has one, and what decoding it gives. */
  datatype Upload = Upload(size: Option<int>, decoding: Decoding)

  /** 10 MiB, the largest upload accepted. */
  const MaxUploadBytes: int := 10 * 1024 * 1024

  const AcceptedFormats: seq<string> := ["JPEG", "PNG", "JPG"]

  const NoImageMessage: string := "No image uploaded"
  const TooLargeMessage: string := "Image too large (max 10MB)"
  const UnsupportedMessage: string := "Unsupported format (use JPEG/PNG)"
  const InvalidPrefix: string := "Invalid image: "
  const ValidMessage: string := "Valid image"

  predicate TooLarge(u: Upload) { u.size.Some? && u.size.value > MaxUploadBytes }

  predicate AcceptedFormat(format: Option<string>) { format.Some? && format.value in AcceptedFormats }

  /**
   * The checks an upload must pass, in order: present, at most 10 MiB, decodable,
   * in an accepted format. The first that fails decides the message.
   */
  function ValidateImage(image: Option<Upload>): (r: (bool, string))
    ensures image.None? ==> r == (false, NoImageMessage)
    ensures image.Some? && TooLarge(image.value) ==> r == (false, TooLargeMessage)
    ensures image.Some? && !TooLarge(image.value) && image.value.decoding.DecodeError? ==>
              r == (false, InvalidPrefix + image.value.decoding.message)
    ensures image.Some? && !TooLarge(image.value) && image.value.decoding.Decoded?
              && !AcceptedFormat(image.value.decoding.format)
            ==> r == (false, UnsupportedMessage)
    ensures r.0 <==> image.Some? && !TooLarge(image.value) && image.value.decoding.Decoded?
                     && AcceptedFormat(image.value.decoding.format)
    ensures r.0 <==> r == (true, ValidMessage)
  {
    if image.None? then (false, NoImageMessage)
    else if TooLarge(image.value) then (false, TooLargeMessage)
    else match image.value.decoding
      case DecodeError(message) => (false, InvalidPrefix + message)
      case Decoded(format) =>
        if !AcceptedFormat(format) then (false, UnsupportedMessage) else (true, ValidMessage)
  }

  /** The message alone tells acceptance from rejection. */
  lemma ValidateImageMessageDecides(image: Option<Upload>)
    ensures ValidateImage(image).0 <==> ValidateImage(image).1 == ValidMessage
  {
  }

  /** The size limit is inclusive: exactly 10 MiB is treated as if no size were known. */
  lemma SizeLimitInclusive(decoding: Decoding)
    ensures ValidateImage(Some(Upload(Some(MaxUploadBytes), decoding))) == ValidateImage(Some(Upload(None, decoding)))
  {
  }

  /** An oversized upload is rejected whatever its contents: the size check comes before decoding. */
  lemma SizeCheckedBeforeFormat(size: int, d1: Decoding, d2: Decoding)
    requires size > MaxUploadBytes
    ensures ValidateImage(Some(Upload(Some(size), d1))) == ValidateImage(Some(Upload(Some(size), d2)))
  {
  }
}
