/** The categories a preview can be rendered as. The authenticated viewer produces all but
    `Folder`; the public viewer all but `Text`. */
module PreviewTypes {
  datatype PreviewType = Image | Pdf | Video | Audio | Text | Folder | Unsupported
}
