/** The persisted configuration: the four-field record written by
    `save_config` and the file `load_config` reads it back from. */
module Configuration {
  import opened Wrappers

  /** The record `get_next_invoice_number` hands to the store. */
  datatype Config = Config(
    companyName: string,
    companyAddress: string,
    invoicePrefix: string,
    lastInvoiceNumber: int)

  /** The file's content as a mapping in which each of the four keys may be
      missing; a missing file reads as the empty mapping. */
  datatype StoredConfig = StoredConfig(
    companyName: Option<string>,
    companyAddress: Option<string>,
    invoicePrefix: Option<string>,
    lastInvoiceNumber: Option<int>)

  const NoFile := StoredConfig(None, None, None, None)

  /** What a save leaves in the file: every key present, with the record's values. */
  function Written(c: Config): StoredConfig {
    StoredConfig(Some(c.companyName), Some(c.companyAddress), Some(c.invoicePrefix), Some(c.lastInvoiceNumber))
  }

  /** The configuration file. `contents` is what a load returns; `saved` logs
      every record written to it, oldest first. */
  class Store {
    var contents: StoredConfig
    ghost var saved: seq<Config>

    constructor (contents: StoredConfig)
      ensures this.contents == contents && saved == []
    {
      this.contents := contents;
      saved := [];
    }

    method Load() returns (c: StoredConfig)
      ensures c == contents
    {
      c := contents;
    }

    /** Overwrites the whole file with the four fields of `c`. */
    method Save(c: Config)
      modifies this
      ensures contents == Written(c)
      ensures saved == old(saved) + [c]
    {
      contents := Written(c);
      saved := saved + [c];
    }
  }
}
