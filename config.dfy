/** The two settings the handlers read (app/app/core/config.py), at their
    defaults; the environment overrides are not modelled. */
module Config {
  const UploadDir: string := "./uploads"
  const MaxFileSizeMb: nat := 10

  /** `os.path.join(settings.upload_dir, name)` for the names the handlers
      build, none of which starts with a separator. */
  function UploadPath(name: string): (path: string)
    ensures |path| == |UploadDir| + 1 + |name|
    ensures path[..|UploadDir| + 1] == UploadDir + "/" && path[|UploadDir| + 1..] == name
  {
    var path := UploadDir + "/" + name;
    assert path[..|UploadDir| + 1] == UploadDir + "/";
    path
  }
}
