/** The state outside the process that the pipeline reads and writes: the
    `params.yaml` file, the artifact files written with dill, and the folders
    uploaded to the S3 bucket. A ghost log records the order of the writes. */
module Storage {
  import opened Common
  import opened Params
  import opened Library

  datatype Event =
    | ParamsWritten(doc: Doc<Setting>)
    | ObjectSaved(path: string, obj: Artifact)
    | FolderUploaded(folder: string, bucket: string)

  class Store {
    var params: Doc<Setting>
    var files: map<string, Artifact>
    var uploads: seq<(string, string)>
    ghost var log: seq<Event>

    constructor (params: Doc<Setting>, files: map<string, Artifact>)
      ensures this.params == params && this.files == files && uploads == [] && log == []
    {
      this.params := params;
      this.files := files;
      uploads := [];
      log := [];
    }

    /** Rewrites `params.yaml` as a whole. */
    method WriteParams(d: Doc<Setting>)
      modifies this
      ensures params == d && files == old(files) && uploads == old(uploads)
      ensures log == old(log) + [ParamsWritten(d)]
    {
      params := d;
      log := log + [ParamsWritten(d)];
    }

    /** `save_object(path, obj)`: writes (or overwrites) one file. */
    method SaveObject(path: string, obj: Artifact)
      modifies this
      ensures files == old(files)[path := obj] && params == old(params) && uploads == old(uploads)
      ensures log == old(log) + [ObjectSaved(path, obj)]
    {
      files := files[path := obj];
      log := log + [ObjectSaved(path, obj)];
    }

    /** `load_object(path)`: a missing file raises a wrapped error. */
    method LoadObject(path: string) returns (r: Result<Artifact>)
      ensures path in files ==> r == Ok(files[path])
      ensures path !in files ==> r == Err(Wrapped(FileMissing(path)))
    {
      if path in files {
        r := Ok(files[path]);
      } else {
        r := Err(Wrapped(FileMissing(path)));
      }
    }

    /** `S3Operation.upload_folder(folder, bucket)`. */
    method UploadFolder(folder: string, bucket: string)
      modifies this
      ensures uploads == old(uploads) + [(folder, bucket)]
      ensures params == old(params) && files == old(files)
      ensures log == old(log) + [FolderUploaded(folder, bucket)]
    {
      uploads := uploads + [(folder, bucket)];
      log := log + [FolderUploaded(folder, bucket)];
    }
  }
}
