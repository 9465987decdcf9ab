/** A browser `File` as the editor sees it. */
module Media {

  /** `id` stands for the object's identity: two distinct `File` objects may
      share name, type and size, and the editor keeps them apart. */
  datatype MediaFile = MediaFile(id: nat, name: string, mimeType: string, size: nat)

  /** `file.type.startsWith('video/')`. */
  predicate IsVideo(f: MediaFile)
    ensures IsVideo(f) <==> |f.mimeType| >= 6 && f.mimeType[..6] == "video/"
  {
    "video/" <= f.mimeType
  }
}
