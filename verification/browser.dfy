/** What the components keep of a browser `File` chosen in a file picker. */
module Browser {
  datatype FileInfo = FileInfo(name: string, size: nat, mimeType: string)
}
