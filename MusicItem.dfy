/**
 * A track as listed by the media catalog: title, artist and the path of the
 * audio file. The Java class keeps the three strings in final fields set once
 * by the constructor; a Dafny datatype value is immutable in the same way, and
 * its destructors `title`, `artist` and `path` play the part of the getters.
 */
module MusicItems {

  datatype MusicItem = MusicItem(title: string, artist: string, path: string)

  /** Each getter hands back exactly the string given to the constructor. */
  lemma GettersReturnConstructorArguments(title: string, artist: string, path: string)
    ensures MusicItem(title, artist, path).title == title
    ensures MusicItem(title, artist, path).artist == artist
    ensures MusicItem(title, artist, path).path == path
  {
  }

  /**
   * Nothing but the three constructor arguments is stored: an item is rebuilt
   * exactly from what its getters return, so no hidden state can change later.
   */
  lemma ItemIsItsThreeFields(item: MusicItem)
    ensures MusicItem(item.title, item.artist, item.path) == item
  {
  }
}
