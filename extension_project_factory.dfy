/** Recognition of Chrome extension projects: a directory is one exactly when
    it holds a direct child called manifest.json. */
module ExtensionProjectFactory {
  import opened NetBeans
  import opened ExtensionProject

  const ProjectFile: FileName := "manifest.json"

  /** Looks for the marker file among the direct children only; reading the
      directory changes nothing (a function cannot). */
  function IsProject(projectDirectory: Directory): (isProject: bool)
    reads projectDirectory
    ensures isProject <==> exists i | 0 <= i < |projectDirectory.children| :: projectDirectory.children[i] == ProjectFile
  {
    projectDirectory.GetFileObject(ProjectFile).Some?
  }

  /** A new project for `dir` when it is a project directory, otherwise null. */
  method LoadProject(dir: Directory) returns (project: ChromeExtensionProject?)
    ensures project != null <==> IsProject(dir)
    ensures project != null ==> fresh(project) && project.GetProjectDirectory() == dir
    ensures project != null ==> project.lkp == null && project.Valid()
  {
    if IsProject(dir) {
      project := new ChromeExtensionProject(dir);
    } else {
      project := null;
    }
  }

  /** Nothing is persisted: neither the project nor its directory changes. */
  method SaveProject(project: ChromeExtensionProject?)
    ensures project != null ==> unchanged(project, project.projectDir)
  {
  }

  /** A folder "proj" holding manifest.json, background.js and popup.html, loaded,
      queried, classified for deletion, then renamed by the host. */
  method ManifestDirectoryScenario()
  {
    var dir := new Directory("proj", ["manifest.json", "background.js", "popup.html"]);
    assert dir.children[0] == ProjectFile;
    var p := LoadProject(dir);
    assert p != null;

    var first := p.GetLookup();
    var second := p.GetLookup();
    assert first == second;

    var info := first.instances[1].info;
    assert info.GetName() == "proj";

    var delete := first.instances[5].delete;
    var data := delete.GetDataFiles();
    assert data == ["manifest.json", "background.js", "popup.html"];
    assert delete.GetMetadataFiles() == [];
    assert first.instances[4].copy.GetDataFiles() == [];

    dir.SetName("renamed");
    assert info.GetDisplayName() == "renamed";

    var other := new Directory("notes", ["readme.txt"]);
    var none := LoadProject(other);
    assert none == null;
  }
}
