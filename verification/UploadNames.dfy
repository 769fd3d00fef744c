/** The names an upload is stored under: those that the constructor of `image_processor` makes of the
    suggested file name, and the format that libmagic's answer stands for. */
module UploadNames {
  import opened Fanout
  import Text

  /** The cleaned first 64 characters of the transliteration. */
  function Sanitized(transliterate: string -> string, s: string): string {
    var t := transliterate(s);
    Text.CleanAll(if |t| <= 64 then t else t[..64])
  }

  /** The file name and the extension. */
  method Construct(transliterate: string -> string, suggested: string) returns (filename: string, extension: string)
    ensures filename == Sanitized(transliterate, Text.GetFilenameWithoutExtension(suggested))
    ensures extension == Sanitized(transliterate, Text.GetExtension(suggested))
  {
    filename := Text.SanitizeFilename(transliterate(Text.GetFilenameWithoutExtension(suggested)));
    extension := Text.SanitizeFilename(transliterate(Text.GetExtension(suggested)));
  }

  /** The part of libmagic's list of extensions before the first `/`; none if it knows no answer. */
  method DetectFormat(magic: Option<string>) returns (detected: Option<string>)
    ensures detected.None? <==> magic.None? || magic.value == "???"
    ensures detected.Some? ==>
      && detected.value <= magic.value && '/' !in detected.value
      && (detected.value != magic.value ==> magic.value[|detected.value|] == '/')
  {
    if magic.None? || magic.value == "???" { return None; }
    var end := 0;
    while end < |magic.value| && magic.value[end] != '/'
      invariant 0 <= end <= |magic.value| && '/' !in magic.value[..end]
    {
      end := end + 1;
    }
    detected := Some(magic.value[..end]);
  }

  predicate IsPlain(s: string) {
    |s| <= 64 && forall i | 0 <= i < |s| :: Text.IsAlnum(s[i]) || s[i] == '-' || s[i] == '_'
  }

  /** A plain name is stored as it was suggested, with an extension or without one. */
  lemma PlainNamesAreKept(transliterate: string -> string, name: string, extension: string)
    requires IsPlain(name) && IsPlain(extension)
    requires transliterate(name) == name && transliterate(extension) == extension && transliterate("") == ""
    ensures Sanitized(transliterate, Text.GetFilenameWithoutExtension(name + "." + extension)) == name
    ensures Sanitized(transliterate, Text.GetExtension(name + "." + extension)) == extension
    ensures Sanitized(transliterate, Text.GetFilenameWithoutExtension(name)) == name
    ensures Sanitized(transliterate, Text.GetExtension(name)) == ""
  {
    assert Text.DotFree(name) && Text.DotFree(extension);
    Text.JoinedNameComesApart(name, extension);
    Text.TakenApart(name);
    Text.CleanedIs(name);
    Text.CleanedIs(extension);
    Text.CleanedIs("");
    assert Text.CleanAll(name) == name && Text.CleanAll(extension) == extension && Text.CleanAll("") == "";
  }

  /** Whatever was suggested, the stored name can be taken apart again: the uploader's extension is as
      good as a detected format. */
  lemma StoredNameComesApart(transliterate: string -> string, suggested: string)
    ensures var filename := Sanitized(transliterate, Text.GetFilenameWithoutExtension(suggested));
      var extension := Sanitized(transliterate, Text.GetExtension(suggested));
      && |filename| <= 64 && |extension| <= 64
      && Text.GetFilenameWithoutExtension(filename + "." + extension) == filename
      && Text.GetExtension(filename + "." + extension) == extension
  {
    var extension := Text.GetExtension(suggested);
    var t := transliterate(extension);
    Text.SanitizedIsPlain(if |t| <= 64 then t else t[..64]);
    Text.JoinedNameComesApart(Sanitized(transliterate, Text.GetFilenameWithoutExtension(suggested)), Sanitized(transliterate, extension));
    hide Text.GetFilenameWithoutExtension, Text.GetExtension;
  }
}
