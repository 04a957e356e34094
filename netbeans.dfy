/** The parts of the NetBeans platform the plugin calls, reduced to what its
    behaviour depends on: a folder with a name and an ordered list of children,
    the standard command names of ActionProvider, and an immutable lookup. */
module NetBeans {

  datatype Option<+T> = None | Some(value: T)

  /** A child of a folder is identified by its file name (name plus extension). */
  type FileName = string

  /** A folder FileObject. The host may rename it or change its children at any
      time; the plugin only reads them. */
  class Directory {
    var name: string
    var children: seq<FileName>

    constructor (name: string, children: seq<FileName>)
      ensures this.name == name && this.children == children
    {
      this.name := name;
      this.children := children;
    }

    /** FileObject.getFileObject(relativePath) for a plain child name: the
        direct child with exactly that name, or null (None). */
    function GetFileObject(relativeName: FileName): (child: Option<FileName>)
      reads this
      ensures child.Some? <==> relativeName in children
      ensures child.Some? ==> child.value == relativeName
    {
      match IndexOf(children, relativeName)
      case Some(i) => Some(children[i])
      case None => None
    }

    /** A rename performed by the host (outside the plugin). */
    method SetName(newName: string)
      modifies this
      ensures name == newName && children == old(children)
    {
      name := newName;
    }
  }

  /** Position of the first child called `name`, if any. */
  function IndexOf(names: seq<FileName>, name: FileName): (r: Option<nat>)
    ensures r.Some? ==> r.value < |names| && names[r.value] == name && name !in names[..r.value]
    ensures r.None? ==> name !in names
  {
    if names == [] then None
    else if names[0] == name then Some(0)
    else match IndexOf(names[1..], name)
      case Some(k) => Some(k + 1)
      case None => None
  }

  // The command names ActionProvider declares (COMMAND_RENAME, COMMAND_MOVE,
  // COMMAND_COPY, COMMAND_DELETE).
  const CommandRename: string := "rename"
  const CommandMove: string := "move"
  const CommandCopy: string := "copy"
  const CommandDelete: string := "delete"

  /** Lookups.fixed(instances): a lookup over a fixed, ordered list of instances
      that never changes after construction. */
  class FixedLookup<T> {
    const instances: seq<T>

    constructor (instances: seq<T>)
      ensures this.instances == instances
    {
      this.instances := instances;
    }
  }

  /** The node delegate the host builds for a folder (DataFolder.getNodeDelegate). */
  datatype FolderNode = FolderNode(folder: Directory)
}
