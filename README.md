# Chrome extension project support for NetBeans, modelled in Dafny

The plugin teaches NetBeans to recognise a folder holding `manifest.json` as a
Chrome extension project. It gives such a project a fixed set of capabilities
through its lookup: project information, a logical view, an action provider for
rename/move/copy/delete, and the three structural operations that tell the IDE
which files belong to the project.

The model reduces the NetBeans and JDK types the plugin touches to what its
behaviour depends on:

- `NetBeans.Directory` is a folder `FileObject`. It is a class with a mutable
  name and an ordered list of child names, and the host may rename it.
- The `ActionProvider` command names are the four strings
  `"rename"`, `"move"`, `"copy"` and `"delete"`.
- `Lookups.fixed` is `NetBeans.FixedLookup`, an immutable ordered list of instances.
- `String.equalsIgnoreCase` is `JavaStrings.EqualsIgnoreCase`.

Modules follow the source files:

- `ExtensionProject` models `ChromeExtensionProject.java`. There is one class
  per Java class. Each inner class holds its owning project in a `const project` field.
- `ExtensionProjectFactory` models `ChromeExtensionProjectFactory.java`.

`getLookup` is imperative: the field `lkp` goes from null to a built lookup
exactly once, and `Valid()` says that a built lookup is always the seven-entry
capability set of its project. The move-or-rename `getDataFiles` keeps its
copying loop. The default rename/move/copy/delete operations are not run.
`InvokeAction` returns the list of operations it would start, as
`DefaultOperation` tags.

Behaviour worth knowing:

- `isActionEnabled` compares case-sensitively but `invokeAction` ignores case.
  `"RENAME"` is therefore not enabled, yet invoking it starts a rename. The
  lemma `EnabledAndInvokeDisagreeOnCase` states this. The other direction is
  consistent: the lemma `EnabledCommandsAreInvoked` states that every enabled
  command is carried out.
- `invokeAction` declares `throws IllegalArgumentException`
  (src/chrome/extension/project/ChromeExtensionProject.java:200) but never
  throws it: an unknown command starts nothing. The ensures clauses of
  `InvokeAction` and `RequestedOperation` state this.
- `loadProject` calls `new ChromeExtensionProject(dir, state)`
  (src/chrome/extension/project/ChromeExtensionProjectFactory.java:36). The only
  constructor takes one argument
  (src/chrome/extension/project/ChromeExtensionProject.java:45). As written, the
  two files do not compile together. This cannot be stated in Dafny. The model
  uses the one-argument constructor, as the `LoadProject` line under
  "## Left out" records.

## Model

| member | source | states |
|---|---|---|
| `ExtensionProject.ChromeExtensionProject.constructor` | src/chrome/extension/project/ChromeExtensionProject.java:45-47 | the project keeps the directory it is given; no lookup is built yet |
| `ExtensionProject.ChromeExtensionProject.GetProjectDirectory` | src/chrome/extension/project/ChromeExtensionProject.java:49-52 | returns the very directory object the project was created with |
| `ExtensionProject.ChromeExtensionProject.GetLookup` | src/chrome/extension/project/ChromeExtensionProject.java:54-68 | builds the set only while `lkp` is null and then stores it; afterwards `lkp` is non-null and every call returns that same object; a first call allocates the lookup and six fresh capability objects; the set is always the seven entries in order (project, Info, logical view, action provider, copy, delete, move-or-rename), each owned by this project |
| `ExtensionProject.Info.GetName` | src/chrome/extension/project/ChromeExtensionProject.java:75-78 | the project directory's current name, read from the directory when asked |
| `ExtensionProject.Info.GetDisplayName` | src/chrome/extension/project/ChromeExtensionProject.java:80-83 | the same current directory name as `GetName` |
| `ExtensionProject.Info.GetProject` | src/chrome/extension/project/ChromeExtensionProject.java:93-96 | the owning project |
| `ExtensionProject.DisplayNamesAgree` | src/chrome/extension/project/ChromeExtensionProject.java:76-83 | Info's display name, Info's name and the project node's display name (lines 176-178) coincide, and equal the name of the project's directory |
| `ExtensionProject.ChromeExtensionProjectLogicalView.CreateLogicalView` | src/chrome/extension/project/ChromeExtensionProject.java:120-136 | yields a decorated node wrapping the folder's node and serving this project when the host provides one, and an empty leaf exactly when the host raised DataObjectNotFoundException |
| `ExtensionProject.ChromeExtensionProjectLogicalView.FindPath` | src/chrome/extension/project/ChromeExtensionProject.java:181-185 | always null, whatever node and target |
| `ExtensionProject.ProjectNode.GetActions` | src/chrome/extension/project/ChromeExtensionProject.java:153-163 | six distinct actions, whatever the context flag: new-file, then rename, move, copy, delete, then close |
| `ExtensionProject.ProjectNode.GetDisplayName` | src/chrome/extension/project/ChromeExtensionProject.java:175-178 | the project directory's current name |
| `ExtensionProject.ChromeExtensionActionProvider.GetSupportedActions` | src/chrome/extension/project/ChromeExtensionProject.java:190-198 | exactly rename, move, copy, delete, in that order |
| `ExtensionProject.ChromeExtensionActionProvider.IsActionEnabled` | src/chrome/extension/project/ChromeExtensionProject.java:219-232 | true iff the command is exactly (case-sensitively) one of the supported commands, false for every other string |
| `ExtensionProject.ChromeExtensionActionProvider.InvokeAction` | src/chrome/extension/project/ChromeExtensionProject.java:199-218 | of the four independent case-insensitive tests at most one starts an operation; it starts one exactly when the command names a supported command ignoring case, and then it is the requested operation (rename with new name `""`); an unknown command starts nothing |
| `ExtensionProject.RequestedOperation` | src/chrome/extension/project/ChromeExtensionProject.java:200-218 | the operation named by the command ignoring case; not NoOp iff the command equals some supported command ignoring case; a rename always carries the empty new name |
| `ExtensionProject.CommandsMatchIgnoringCase` | src/chrome/extension/project/ChromeExtensionProject.java:201-214 | since the command names are lower case, each case-insensitive test is the same as comparing the lower-cased command exactly |
| `ExtensionProject.EnabledCommandsAreInvoked` | src/chrome/extension/project/ChromeExtensionProject.java:200-232 | every enabled command, when invoked, starts exactly its operation |
| `ExtensionProject.InvokeIgnoresCase` | src/chrome/extension/project/ChromeExtensionProject.java:200-218 | commands that differ only in letter case start the same operations |
| `ExtensionProject.EnabledAndInvokeDisagreeOnCase` | src/chrome/extension/project/ChromeExtensionProject.java:200-232 | `"RENAME"` is not enabled, yet invoking it starts a rename to `""` |
| `ExtensionProject.ChromeExtensionProjectMoveOrRenameOperation.GetMetadataFiles` | src/chrome/extension/project/ChromeExtensionProject.java:236-239 | always empty |
| `ExtensionProject.ChromeExtensionProjectMoveOrRenameOperation.GetDataFiles` | src/chrome/extension/project/ChromeExtensionProject.java:240-247 | the directory's direct children, all of them, in order, built one by one into a new list |
| `ExtensionProject.ChromeExtensionProjectCopyOperation.GetMetadataFiles` | src/chrome/extension/project/ChromeExtensionProject.java:263-266 | always empty |
| `ExtensionProject.ChromeExtensionProjectCopyOperation.GetDataFiles` | src/chrome/extension/project/ChromeExtensionProject.java:267-270 | always empty, whatever the directory contains |
| `ExtensionProject.ChromeExtensionProjectDeleteOperation.GetMetadataFiles` | src/chrome/extension/project/ChromeExtensionProject.java:280-283 | always empty |
| `ExtensionProject.ChromeExtensionProjectDeleteOperation.GetDataFiles` | src/chrome/extension/project/ChromeExtensionProject.java:284-289 | a new list equal to the directory's direct children, in order |
| `JavaStrings.EqualsIgnoreCaseIsSameLower` | src/chrome/extension/project/ChromeExtensionProject.java:201-214 | `equalsIgnoreCase` holds exactly when both strings lower-case to the same string |
| `NetBeans.Directory.GetFileObject` | src/chrome/extension/project/ChromeExtensionProjectFactory.java:31 | finds a child exactly when one of the direct children has that exact name, and returns that child |
| `NetBeans.IndexOf` | src/chrome/extension/project/ChromeExtensionProjectFactory.java:31 | the position of the first child with the name, or none when no child has it |
| `ExtensionProjectFactory.IsProject` | src/chrome/extension/project/ChromeExtensionProjectFactory.java:29-32 | true iff some direct child is named exactly `manifest.json` (the constant of line 21); a function, so the directory is not modified |
| `ExtensionProjectFactory.LoadProject` | src/chrome/extension/project/ChromeExtensionProjectFactory.java:34-37 | a new project iff `IsProject(dir)`, otherwise null; the project's directory is `dir` itself and its lookup is not yet built |
| `ExtensionProjectFactory.SaveProject` | src/chrome/extension/project/ChromeExtensionProjectFactory.java:39-41 | changes neither the project nor its directory |

## Left out

- Icons are not modelled, because they are image resources with no behaviour to state. This covers `Info.getIcon`, `ProjectNode.getIcon`/`getOpenedIcon` and the `CUSTOMER_ICON` constants.
- The property-change listener methods of `Info` are not modelled, because their bodies are empty.
- The `notify*` hooks of the three operations are not modelled, because their bodies are empty and change no state.
- `DefaultProjectOperations.performDefault*Operation` are not run. The model only returns which operation would be started on the owning project.
- `ExtensionProject.ChromeExtensionProjectLogicalView.CreateLogicalView`: the host's `DataFolder.findFolder(...).getNodeDelegate()` is a parameter. The stack trace printed on failure is not modelled.
- `ExtensionProject.ProjectNode` keeps the wrapped folder node. The `FilterNode.Children` and `ProxyLookup` it builds from that node are host objects and are not modelled.
- The `Lookup` argument of `invokeAction` and `isActionEnabled` is not modelled, because neither method uses it.
- Null arguments are not modelled. Java would throw `NullPointerException` for a null command in `invokeAction` or `isActionEnabled`, or for a null directory in `isProject`.
- `ExtensionProjectFactory.LoadProject`: the `ProjectState` argument is dropped. The source passes it to a two-argument constructor that `ChromeExtensionProject` does not declare, so the one-argument constructor is used.
- The model has no synchronisation or concurrency for `getLookup`, because the source has none.
- `Lookup.lookup(Class)`, the host's query by type, is not modelled. The model covers only the ordered list of registered instances.
- `JavaStrings.EqualsIgnoreCase` folds ASCII letters only, whereas Java also folds other Unicode letters. The letters of the four command names have no case variants outside ASCII, so `InvokeAction` is unaffected. UTF-16 surrogate pairs are not modelled.
- `NetBeans.Directory.GetFileObject` compares names exactly, and only looks up plain child names, not relative paths. Case-insensitive file systems are not modelled.
- File lists hold child names rather than `FileObject` handles. They are values, so "a new list" means only that later changes to the directory cannot reach a list already returned.
- The `@ServiceProvider` registration of the factory is not modelled, because it is host configuration.
