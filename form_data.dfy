/** What the multipart routes receive: form entries that are files or
    text, the outcome of uploading a file to the media host (the upload
    itself, lib/cloudinary.ts, is not part of this model), what
    `JSON.parse` makes of a text field, and the image rules the project
    and profile routes share. */
module FormData {
  import opened Common

  /** A finished upload's `secure_url` and `public_id`. */
  datatype Upload = Upload(url: string, publicId: string)

  /** What the upload of one file does: it finishes, or it throws (with
      the message of the `Error`, or `None` for anything else thrown). */
  datatype UploadOutcome = Uploaded(upload: Upload) | UploadThrew(message: Option<string>)

  /** One form entry: a file, with what its upload would do, or text. */
  datatype Entry = FileEntry(mime: string, size: int, outcome: UploadOutcome) | TextEntry(text: string)

  /** What `JSON.parse` makes of a text: an array of strings, some other
      value, or a syntax error. */
  datatype JsonList = StringArray(items: seq<string>) | OtherValue | SyntaxError

  const ImageTypes: seq<string> := ["image/jpeg", "image/png", "image/webp"]
  /** 5 MiB. */
  const MaxImageSize := 5 * 1024 * 1024
}
