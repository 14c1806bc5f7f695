/** FolderItem (XPCLibrary/Sources/XPCLibrary/FolderItem.swift): an entry of a device folder
    listing, either a sub-folder with a photo count or a photo. */
module FolderItems {

  datatype FolderItem =
    | Folder(name: string, photoCount: int)
    | Photo(name: string)

  const FolderIdPrefix: string := "folder_"
  const PhotoIdPrefix: string := "photo_"

  /** `id`: the kind's prefix followed by the name. */
  function Id(item: FolderItem): (id: string)
    ensures item.Folder? ==> id == FolderIdPrefix + item.name
    ensures item.Photo? ==> id == PhotoIdPrefix + item.name
  {
    match item
    case Folder(name, _) => FolderIdPrefix + name
    case Photo(name) => PhotoIdPrefix + name
  }

  /** `name`: the carried name, whichever the case. */
  function Name(item: FolderItem): (name: string)
    ensures (item.Folder? && item == Folder(name, item.photoCount)) || item == Photo(name)
  {
    match item
    case Folder(name, _) => name
    case Photo(name) => name
  }

  /** `isFolder` */
  function IsFolder(item: FolderItem): (b: bool)
    ensures b <==> exists n, c :: item == Folder(n, c)
  {
    match item
    case Folder(_, _) => true
    case Photo(_) => false
  }

  /** Two items share an id exactly when they are of the same kind and carry the same name:
      a folder and a photo never collide, and a folder's photo count does not enter its id. */
  lemma IdsEqualIff(a: FolderItem, b: FolderItem)
    ensures Id(a) == Id(b) <==> IsFolder(a) == IsFolder(b) && Name(a) == Name(b)
  {
    assert Id(a)[0] == (if a.Folder? then 'f' else 'p');
    assert Id(b)[0] == (if b.Folder? then 'f' else 'p');
    if Id(a) == Id(b) {
      if a.Folder? == b.Folder? {
        var pre := if a.Folder? then FolderIdPrefix else PhotoIdPrefix;
        assert Name(a) == Id(a)[|pre|..] && Name(b) == Id(b)[|pre|..];
      }
    }
  }
}
