/** A Chrome extension project: a directory handle plus the lazily built,
    fixed set of capabilities NetBeans asks the project for. */
module ExtensionProject {
  import opened NetBeans
  import opened JavaStrings

  /** One entry of the project's lookup. Every capability object is an inner
      instance of the project it serves; `Owner` is that back-reference. */
  datatype Capability =
    | ProjectItself(project: ChromeExtensionProject)
    | Information(info: Info)
    | LogicalView(view: ChromeExtensionProjectLogicalView)
    | Actions(provider: ChromeExtensionActionProvider)
    | CopyOperation(copy: ChromeExtensionProjectCopyOperation)
    | DeleteOperation(delete: ChromeExtensionProjectDeleteOperation)
    | MoveOrRenameOperation(moveOrRename: ChromeExtensionProjectMoveOrRenameOperation)
  {
    function Owner(): ChromeExtensionProject {
      match this
      case ProjectItself(p) => p
      case Information(i) => i.project
      case LogicalView(v) => v.project
      case Actions(a) => a.project
      case CopyOperation(c) => c.project
      case DeleteOperation(d) => d.project
      case MoveOrRenameOperation(m) => m.project
    }

    function Instance(): object {
      match this
      case ProjectItself(p) => p
      case Information(i) => i
      case LogicalView(v) => v
      case Actions(a) => a
      case CopyOperation(c) => c
      case DeleteOperation(d) => d
      case MoveOrRenameOperation(m) => m
    }
  }

  /** The seven entries of a project's lookup, in the order they are registered:
      the project itself, its information, its logical view, its action provider,
      and its copy, delete and move-or-rename operations, all serving `p`. */
  ghost predicate IsCapabilitySet(entries: seq<Capability>, p: ChromeExtensionProject) {
    && |entries| == 7
    && entries[0] == ProjectItself(p)
    && entries[1].Information?
    && entries[2].LogicalView?
    && entries[3].Actions?
    && entries[4].CopyOperation?
    && entries[5].DeleteOperation?
    && entries[6].MoveOrRenameOperation?
    && forall i | 0 <= i < |entries| :: entries[i].Owner() == p
  }

  ghost function Instances(entries: seq<Capability>): set<object> {
    set c | c in entries :: c.Instance()
  }

  class ChromeExtensionProject {
    const projectDir: Directory
    var lkp: FixedLookup?<Capability>

    /** Either the lookup has not been built yet, or it is the capability set of this project. */
    ghost predicate Valid()
      reads this
    {
      lkp != null ==> IsCapabilitySet(lkp.instances, this)
    }

    constructor (projectDir: Directory)
      ensures this.projectDir == projectDir && lkp == null && Valid()
    {
      this.projectDir := projectDir;
      lkp := null;
    }

    function GetProjectDirectory(): (dir: Directory)
      ensures dir == projectDir
    {
      projectDir
    }

    /** Builds the capability set on the first call only; every call returns
        the lookup held in `lkp`, so all calls return the same object. */
    method GetLookup() returns (l: FixedLookup<Capability>)
      requires Valid()
      modifies this
      ensures Valid() && lkp == l
      ensures IsCapabilitySet(l.instances, this)
      ensures old(lkp) != null ==> l == old(lkp)
      ensures old(lkp) == null ==> fresh(l) && fresh(Instances(l.instances[1..]))
    {
      if lkp == null {
        var info := new Info(this);
        var view := new ChromeExtensionProjectLogicalView(this);
        var provider := new ChromeExtensionActionProvider(this);
        var copy := new ChromeExtensionProjectCopyOperation(this);
        var delete := new ChromeExtensionProjectDeleteOperation(this);
        var moveOrRename := new ChromeExtensionProjectMoveOrRenameOperation(this);
        lkp := new FixedLookup([
          ProjectItself(this),
          Information(info),
          LogicalView(view),
          Actions(provider),
          CopyOperation(copy),
          DeleteOperation(delete),
          MoveOrRenameOperation(moveOrRename)
        ]);
      }
      l := lkp;
    }
  }

  /** ProjectInformation of the project. Names are read from the directory on
      every call: a function of the current heap, never a stored copy. */
  class Info {
    const project: ChromeExtensionProject

    constructor (project: ChromeExtensionProject)
      ensures this.project == project
    {
      this.project := project;
    }

    function GetName(): (name: string)
      reads project.projectDir
      ensures name == project.projectDir.name
    {
      project.GetProjectDirectory().name
    }

    function GetDisplayName(): (name: string)
      reads project.projectDir
      ensures name == project.projectDir.name
    {
      GetName()
    }

    function GetProject(): (p: ChromeExtensionProject)
      ensures p == project
    {
      project
    }
  }

  /** The entries of the project node's context menu (CommonProjectActions). */
  datatype NodeAction =
    | NewFileAction
    | RenameProjectAction
    | MoveProjectAction
    | CopyProjectAction
    | DeleteProjectAction
    | CloseProjectAction

  /** What createLogicalView yields: the decorated project node, or an empty
      leaf when the folder's node could not be obtained. */
  datatype ViewNode = Decorated(node: ProjectNode) | EmptyLeaf

  class ChromeExtensionProjectLogicalView {
    const project: ChromeExtensionProject

    constructor (project: ChromeExtensionProject)
      ensures this.project == project
    {
      this.project := project;
    }

    /** `folderNode` is the host's node for the project directory, or None when
        the host raised DataObjectNotFoundException. */
    method CreateLogicalView(folderNode: Option<FolderNode>) returns (view: ViewNode)
      requires folderNode.Some? ==> folderNode.value.folder == project.projectDir
      ensures view.Decorated? <==> folderNode.Some?
      ensures view.Decorated? ==> view.node.original == folderNode.value && view.node.project == project
    {
      match folderNode
      case Some(n) =>
        var node := new ProjectNode(n, project);
        view := Decorated(node);
      case None =>
        view := EmptyLeaf;
    }

    /** Path resolution is not implemented: every query answers null. */
    function FindPath(root: ViewNode, target: object?): (found: Option<ViewNode>)
      ensures found.None?
    {
      None
    }
  }

  /** The project directory's node, decorated with the project's name and actions. */
  class ProjectNode {
    const original: FolderNode
    const project: ChromeExtensionProject

    constructor (original: FolderNode, project: ChromeExtensionProject)
      ensures this.original == original && this.project == project
    {
      this.original := original;
      this.project := project;
    }

    /** Six distinct actions, whatever the context flag: new-file, the four
        structural operations in the provider's order, then close. */
    function GetActions(context: bool): (actions: seq<NodeAction>)
      ensures |actions| == 6
      ensures actions[0] == NewFileAction && actions[5] == CloseProjectAction
      ensures actions[1..5] == [RenameProjectAction, MoveProjectAction, CopyProjectAction, DeleteProjectAction]
      ensures forall i, j | 0 <= i < j < |actions| :: actions[i] != actions[j]
    {
      [NewFileAction, RenameProjectAction, MoveProjectAction,
       CopyProjectAction, DeleteProjectAction, CloseProjectAction]
    }

    function GetDisplayName(): (name: string)
      reads project.projectDir
      ensures name == project.projectDir.name
    {
      project.GetProjectDirectory().name
    }
  }

  /** The project's own name for every display of it is the directory's current name. */
  lemma DisplayNamesAgree(info: Info, node: ProjectNode)
    requires info.project == node.project
    ensures info.GetDisplayName() == info.GetName() == node.GetDisplayName()
    ensures info.GetName() == info.GetProject().GetProjectDirectory().name
  {
  }

  /** A default project operation the action provider hands to the host. */
  datatype DefaultOperation = Rename(newName: string) | Move | Copy | Delete | NoOp

  const SupportedCommands: seq<string> := [CommandRename, CommandMove, CommandCopy, CommandDelete]

  /** The operation a command names, read without regard to case. */
  function RequestedOperation(command: string): (op: DefaultOperation)
    ensures op != NoOp <==> exists c | c in SupportedCommands :: EqualsIgnoreCase(command, c)
    ensures op.Rename? ==> op.newName == ""
  {
    CommandsMatchIgnoringCase(command);
    var lower := ToLowerCase(command);
    if lower == CommandRename then Rename("")
    else if lower == CommandMove then Move
    else if lower == CommandCopy then Copy
    else if lower == CommandDelete then Delete
    else NoOp
  }

  /** The four command names are lower case, so matching one of them ignoring
      case is the same as lower-casing the command and comparing exactly. */
  lemma CommandsMatchIgnoringCase(command: string)
    ensures EqualsIgnoreCase(command, CommandRename) <==> ToLowerCase(command) == CommandRename
    ensures EqualsIgnoreCase(command, CommandMove) <==> ToLowerCase(command) == CommandMove
    ensures EqualsIgnoreCase(command, CommandCopy) <==> ToLowerCase(command) == CommandCopy
    ensures EqualsIgnoreCase(command, CommandDelete) <==> ToLowerCase(command) == CommandDelete
  {
  }

  class ChromeExtensionActionProvider {
    const project: ChromeExtensionProject

    constructor (project: ChromeExtensionProject)
      ensures this.project == project
    {
      this.project := project;
    }

    function GetSupportedActions(): (commands: seq<string>)
      ensures commands == [CommandRename, CommandMove, CommandCopy, CommandDelete]
    {
      SupportedCommands
    }

    /** Exact, case-sensitive comparison with the four command names. */
    function IsActionEnabled(command: string): (enabled: bool)
      ensures enabled <==> command in SupportedCommands
    {
      if command == CommandRename then true
      else if command == CommandMove then true
      else if command == CommandCopy then true
      else if command == CommandDelete then true
      else false
    }

    /** The default operations performed on the project, in the order they are
        started: each of the four case-insensitive tests may start one, and at
        most one of them can succeed. An unknown command performs nothing. */
    function InvokeAction(command: string): (performed: seq<DefaultOperation>)
      ensures |performed| <= 1
      ensures performed == [] <==> RequestedOperation(command) == NoOp
      ensures performed != [] ==> performed == [RequestedOperation(command)]
    {
      CommandsMatchIgnoringCase(command);
      (if EqualsIgnoreCase(command, CommandRename) then [Rename("")] else [])
      + (if EqualsIgnoreCase(command, CommandMove) then [Move] else [])
      + (if EqualsIgnoreCase(command, CommandCopy) then [Copy] else [])
      + (if EqualsIgnoreCase(command, CommandDelete) then [Delete] else [])
    }
  }

  /** Every enabled command is also carried out when invoked. */
  lemma EnabledCommandsAreInvoked(provider: ChromeExtensionActionProvider, command: string)
    requires provider.IsActionEnabled(command)
    ensures provider.InvokeAction(command) == [RequestedOperation(command)]
    ensures RequestedOperation(command) != NoOp
  {
  }

  /** Commands that differ only in case are invoked identically. */
  lemma InvokeIgnoresCase(provider: ChromeExtensionActionProvider, command: string, other: string)
    requires ToLowerCase(command) == ToLowerCase(other)
    ensures provider.InvokeAction(command) == provider.InvokeAction(other)
  {
  }

  /** The two members disagree on case: "RENAME" is not enabled, yet invoking it renames. */
  lemma EnabledAndInvokeDisagreeOnCase(provider: ChromeExtensionActionProvider)
    ensures !provider.IsActionEnabled("RENAME")
    ensures provider.InvokeAction("RENAME") == [Rename("")]
  {
  }

  class ChromeExtensionProjectMoveOrRenameOperation {
    const project: ChromeExtensionProject

    constructor (project: ChromeExtensionProject)
      ensures this.project == project
    {
      this.project := project;
    }

    function GetMetadataFiles(): (files: seq<FileName>)
      ensures files == []
    {
      []
    }

    /** A new list of the project directory's direct children, in listing order. */
    method GetDataFiles() returns (files: seq<FileName>)
      ensures files == project.projectDir.children
    {
      var children := project.projectDir.children;
      var toReturn: seq<FileName> := [];
      for i := 0 to |children|
        invariant toReturn == children[..i]
      {
        toReturn := toReturn + [children[i]];
      }
      files := toReturn;
    }
  }

  class ChromeExtensionProjectCopyOperation {
    const project: ChromeExtensionProject

    constructor (project: ChromeExtensionProject)
      ensures this.project == project
    {
      this.project := project;
    }

    function GetMetadataFiles(): (files: seq<FileName>)
      ensures files == []
    {
      []
    }

    /** Nothing is reported, whatever the directory holds. */
    function GetDataFiles(): (files: seq<FileName>)
      ensures files == []
    {
      []
    }
  }

  class ChromeExtensionProjectDeleteOperation {
    const project: ChromeExtensionProject

    constructor (project: ChromeExtensionProject)
      ensures this.project == project
    {
      this.project := project;
    }

    function GetMetadataFiles(): (files: seq<FileName>)
      ensures files == []
    {
      []
    }

    /** A new list of the project directory's direct children, in listing order. */
    method GetDataFiles() returns (files: seq<FileName>)
      ensures files == project.projectDir.children
    {
      var toReturn: seq<FileName> := [];
      toReturn := toReturn + project.projectDir.children;
      files := toReturn;
    }
  }
}
