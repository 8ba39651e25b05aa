/**
 * The profile and account forms of the dashboards:
 * src/backend/dashboards/admindash/components/AccountSettings.jsx,
 * src/backend/dashboards/admindash/components/AdminProfileSettings.jsx and
 * src/backend/dashboards/userdash/components/ProfileSettings.jsx share the same field
 * handlers: a form is a map from field name to text, a contact number keeps only digits and
 * at most as many as the selected country allows, a cleared select falls back to a default,
 * and a chosen profile picture must be small enough, of an allowed type and not too large.
 */
module Forms {
  import opened Wrappers
  import opened Text

  /** The length allowed when the selected code is missing or not in the list. */
  const DefaultMaxLength: nat := 15

  const DefaultCountryCode: string := "+63"
  const DefaultRole: string := "user"

  /** The dialling codes the pages offer. */
  const KnownCodes: set<string> :=
    {"+63", "+1", "+44", "+61", "+81", "+82", "+86", "+91", "+49", "+33", "+39", "+34", "+7", "+55", "+52"}

  /**
   * `countryCodes.find(c => c.value === code)?.maxLength`: how many digits a number with this
   * dialling code has (the two +1 entries, US and Canada, both allow 10).
   */
  function CodeMaxLength(code: string): (r: Option<nat>)
    ensures r.Some? <==> code in KnownCodes
    ensures r.Some? ==> 9 <= r.value <= 11
  {
    if code == "+63" || code == "+1" || code == "+44" || code == "+81" || code == "+82" || code == "+91"
       || code == "+39" || code == "+7" || code == "+52" then Some(10)
    else if code == "+61" || code == "+33" || code == "+34" then Some(9)
    else if code == "+86" || code == "+49" || code == "+55" then Some(11)
    else None
  }

  /** `selectedCountry ? selectedCountry.maxLength : 15` for the form's current country code. */
  function MaxLength(countryCode: Option<string>): (n: nat)
    ensures n <= DefaultMaxLength
    ensures n == DefaultMaxLength <==> countryCode.None? || countryCode.value !in KnownCodes
  {
    if countryCode.None? then DefaultMaxLength
    else
      var found := CodeMaxLength(countryCode.value);
      if found.Some? then found.value else DefaultMaxLength
  }

  /** The contact number kept for a typed value: its digits, cut to the allowed length. */
  function SanitizeContact(value: string, countryCode: Option<string>): (r: string)
    ensures forall i :: 0 <= i < |r| ==> IsDigit(r[i])
    ensures |r| <= MaxLength(countryCode)
    ensures r <= DigitsOnly(value)
    ensures |DigitsOnly(value)| <= MaxLength(countryCode) ==> r == DigitsOnly(value)
  {
    Take(DigitsOnly(value), MaxLength(countryCode))
  }

  /** Sanitising a sanitised number changes nothing. */
  lemma SanitizeIdempotent(value: string, countryCode: Option<string>)
    ensures SanitizeContact(SanitizeContact(value, countryCode), countryCode) == SanitizeContact(value, countryCode)
  {
    DigitsOnlyOfDigits(SanitizeContact(value, countryCode));
  }

  /** A number typed as digits of the allowed length is kept exactly. */
  lemma SanitizeKeepsValidNumber(value: string, countryCode: Option<string>)
    requires forall i :: 0 <= i < |value| ==> IsDigit(value[i])
    requires |value| <= MaxLength(countryCode)
    ensures SanitizeContact(value, countryCode) == value
  {
    DigitsOnlyOfDigits(value);
  }

  function Get(data: map<string, string>, field: string): Option<string> {
    if field in data then Some(data[field]) else None
  }

  const ContactNumber: string := "contactNumber"

  /** The form's fields after typing `value` into `field`: the contact number sanitised, any other field as typed. */
  function Changed(data: map<string, string>, field: string, value: string): (r: map<string, string>)
    ensures r.Keys == data.Keys + {field}
    ensures field == ContactNumber ==> r[field] == SanitizeContact(value, Get(data, "countryCode"))
    ensures field != ContactNumber ==> r[field] == value
    ensures forall f :: f in data && f != field ==> r[f] == data[f]
  {
    if field == ContactNumber then data[field := SanitizeContact(value, Get(data, "countryCode"))]
    else data[field := value]
  }

  /** The fields the user profile's Clear button leaves: everything empty, the country code +63. */
  const ClearedProfile: map<string, string> := map[
    "firstName" := "", "middleInitial" := "", "lastName" := "", "region" := "", "country" := "",
    "city" := "", "address" := "", "postalCode" := "", "countryCode" := DefaultCountryCode,
    "contactNumber" := ""
  ]

  /** A form's state: the `formData` object. */
  class FormData {
    var data: map<string, string>

    constructor (data: map<string, string>)
      ensures this.data == data
    {
      this.data := data;
    }

    /** `handleChange` / `handleFormChange`: only the named field changes. */
    method Change(field: string, value: string)
      modifies this
      ensures data == Changed(old(data), field, value)
    {
      if field == ContactNumber {
        var maxLength := MaxLength(Get(data, "countryCode"));
        var digits := DigitsOnly(value);
        data := data[field := Take(digits, maxLength)];
        return;
      }
      data := data[field := value];
    }

    /** `handleRoleChange`: a cleared role select means "user". */
    method SelectRole(selected: Option<string>)
      modifies this
      ensures data == old(data)["role" := selected.GetOr(DefaultRole)]
    {
      data := data["role" := if selected.Some? then selected.value else DefaultRole];
    }

    /** `handleCountryCodeChange`: a cleared country code select means "+63". */
    method SelectCountryCode(selected: Option<string>)
      modifies this
      ensures data == old(data)["countryCode" := selected.GetOr(DefaultCountryCode)]
    {
      data := data["countryCode" := if selected.Some? then selected.value else DefaultCountryCode];
    }

    /** `handleRegionChange`: a cleared region select means no region. */
    method SelectRegion(selected: Option<string>)
      modifies this
      ensures data == old(data)["region" := selected.GetOr("")]
    {
      data := data["region" := if selected.Some? then selected.value else ""];
    }

    /** The profile page's Clear button: the form is replaced, and the picture field is dropped with it. */
    method Clear()
      modifies this
      ensures data == ClearedProfile
      ensures "profilePicture" !in data
      ensures data["countryCode"] == DefaultCountryCode
      ensures forall f :: f in data && f != "countryCode" ==> data[f] == ""
    {
      data := ClearedProfile;
    }
  }

  /** The size limit of a profile picture: 1 MiB. */
  const MaxImageBytes: nat := 1048576
  const MaxImageSide: nat := 3000

  /** The MIME types `/^image\/(jpeg|jpg|png|webp)$/` accepts. */
  predicate AllowedImageType(mime: string) {
    mime == "image/jpeg" || mime == "image/jpg" || mime == "image/png" || mime == "image/webp"
  }

  /** A chosen file as the checks see it. */
  datatype ImageFile = ImageFile(size: nat, mime: string, width: nat, height: nat)

  datatype ImageError = TooLarge | WrongType | TooManyPixels

  /** `handleImageChange`'s checks, in their order: size, then type, then dimensions. */
  function CheckImage(file: ImageFile): (r: Option<ImageError>)
    ensures r.None? <==>
      file.size <= MaxImageBytes && AllowedImageType(file.mime)
      && file.width <= MaxImageSide && file.height <= MaxImageSide
    ensures r == Some(TooLarge) <==> file.size > MaxImageBytes
    ensures r == Some(WrongType) <==> file.size <= MaxImageBytes && !AllowedImageType(file.mime)
  {
    if file.size > MaxImageBytes then Some(TooLarge)
    else if !AllowedImageType(file.mime) then Some(WrongType)
    else if file.width > MaxImageSide || file.height > MaxImageSide then Some(TooManyPixels)
    else None
  }

  function ImageMessage(e: ImageError): string {
    match e
    case TooLarge => "Image must be less than 1MB"
    case WrongType => "Only JPEG, PNG, and WebP images are allowed"
    case TooManyPixels => "Image dimensions must not exceed 3000x3000 pixels"
  }

  /** The picture chooser of the profile pages: the accepted file and the page's message. */
  class ImagePicker {
    var image: Option<ImageFile>
    var message: string

    constructor ()
      ensures image.None? && message == ""
    {
      image, message := None, "";
    }

    /** `handleImageChange` for a chosen file: a refused file only sets the error message. */
    method Choose(file: ImageFile)
      modifies this
      ensures CheckImage(file).Some? ==> image == old(image) && message == ImageMessage(CheckImage(file).value)
      ensures CheckImage(file).None? ==> image == Some(file) && message == ""
    {
      if file.size > MaxImageBytes {
        message := ImageMessage(TooLarge);
        return;
      }
      if !AllowedImageType(file.mime) {
        message := ImageMessage(WrongType);
        return;
      }
      if file.width > MaxImageSide || file.height > MaxImageSide {
        message := ImageMessage(TooManyPixels);
        return;
      }
      image := Some(file);
      message := "";
    }
  }
}
