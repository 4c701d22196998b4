/** The part of the local file system the export touches. */
module Fs {

  /**
   * Directories and regular files by path; a file's content is a string,
   * written whole (create or truncate).
   */
  class FileSystem {
    var dirs: set<string>
    var files: map<string, string>

    constructor (dirs: set<string>, files: map<string, string>)
      ensures this.dirs == dirs && this.files == files
    {
      this.dirs := dirs;
      this.files := files;
    }

    /** `fs.existsSync`: true for a directory and for a file alike. */
    predicate Exists(path: string)
      reads this
    {
      path in dirs || path in files
    }

    /** `fs.mkdirSync`, one level. */
    method MakeDirectory(path: string)
      modifies this
      ensures dirs == old(dirs) + {path} && files == old(files)
    {
      dirs := dirs + {path};
    }

    /** `fs.writeFileSync`: the content replaces whatever the path held. */
    method WriteFile(path: string, content: string)
      modifies this
      ensures files == old(files)[path := content] && dirs == old(dirs)
    {
      files := files[path := content];
    }
  }
}
