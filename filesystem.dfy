/**
 * The queue directory as the relay sees it: file names mapped to what
 * reading them yields. Foundation and Node's `fs` are not modelled; a read
 * either fails, gives valid UTF-8 text, or gives bytes that are not valid
 * UTF-8 (which Node still decodes, with replacement characters).
 */
module FileSystem {

  datatype Content =
    | Unreadable
    | Utf8(text: string)
    | NotUtf8(lossy: string)

  class Directory {
    var files: map<string, Content>

    constructor (files: map<string, Content>)
      ensures this.files == files
    {
      this.files := files;
    }

    /** Deleting a file; deleting a missing one changes nothing. */
    method Remove(name: string)
      modifies this
      ensures files == old(files) - {name}
    {
      files := files - {name};
    }
  }
}
