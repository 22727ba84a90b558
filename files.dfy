/**
 * The text files the setup scripts read and write: a path maps to the file's
 * text, and a path without an entry is a file that does not exist.
 */
module FileStore {
  /** The text of a file; a missing file reads as empty, as the scripts treat it. */
  function TextOf(text: map<string, string>, path: string): string {
    if path in text then text[path] else ""
  }

  class Files {
    var text: map<string, string>

    constructor (text: map<string, string>)
      ensures this.text == text
    {
      this.text := text;
    }

    /** `os.path.exists(path)` */
    predicate Exists(path: string)
      reads this
    {
      path in text
    }

    /** `open(path).read()` on an existing file. */
    function Read(path: string): string
      reads this
    {
      TextOf(text, path)
    }

    /** `open(path, "w").write(content)` */
    method Write(path: string, content: string)
      modifies this
      ensures text == old(text)[path := content]
    {
      text := text[path := content];
    }

    /** `open(path, "a").write(content)`: a missing file is created. */
    method Append(path: string, content: string)
      modifies this
      ensures text == old(text)[path := old(Read(path)) + content]
    {
      text := text[path := Read(path) + content];
    }
  }
}
