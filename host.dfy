/** What the command learns from the machine it runs on: the network, the
    filesystem, date parsing and the Zotero service. Each is a value or a
    function given to the model rather than an effect it performs. */
module Host {
  import opened Wrappers
  import opened Errors

  datatype Env = Env(
    /** `network_available()` */
    networkUp: bool,
    /** `os.path.isfile` */
    isFile: string -> bool,
    /** `os.path.isdir` */
    isDir: string -> bool,
    /** `filename_extension` */
    extension: string -> string,
    /** `files_in_directory(d, extensions = ['.pdf'])` */
    dirPdfs: string -> seq<string>,
    /** `parsed_datetime`, as a timestamp; `None` when the text cannot be parsed */
    parseDate: string -> Option<int>,
    /** the modification time `stat()` reports for a path, or what `stat()` raises */
    mtime: string -> Result<int, Exc>,
    /** what the `Zotero(...)` constructor raises, if anything */
    zoteroError: Option<Exc>,
    /** `record_for_file(f).link`, or what `record_for_file` raises */
    link: string -> Result<string, Exc>,
    /** what `write_uri` of the named writer raises for a file, if anything */
    writeError: (string, string) -> Option<Exc>
  )
}
