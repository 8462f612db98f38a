/** The local filesystem as far as the pipeline's temporary files are concerned:
    the set of paths that currently exist. */
module TempFs {

  class TempFiles {
    var live: set<string>

    constructor (initial: set<string>)
      ensures live == initial
    {
      live := initial;
    }

    /** `fs.createWriteStream(path)` or a codec writing `path`: the file exists
        afterwards, whether or not it existed before (it is truncated). */
    method Create(path: string)
      modifies this
      ensures live == old(live) + {path}
    {
      live := live + {path};
    }

    /** `fsPromise.unlink(path)`: removes the file; it fails (ENOENT) exactly when the
        file is not there. */
    method Unlink(path: string) returns (ok: bool)
      modifies this
      ensures ok <==> path in old(live)
      ensures live == old(live) - {path}
    {
      ok := path in live;
      live := live - {path};
    }
  }
}
