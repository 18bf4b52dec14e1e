/**
 * The site-wide constants of data/globals.ts.
 *
 * The upload script, the lightbox and the collage also use an "optimized"
 * directory name that data/globals.ts does not define. It is kept abstract here:
 * some directory name other than the full-resolution and blur directories.
 */
module Globals {

  const BaseURL: string := "https://storage.googleapis.com/mcwilliamsphoto"
  const FullDirName: string := "watermarked"
  const BlurDirName: string := "blur"
  const AlbumPhotoEnding: string := "_album.jpg"
  const AlbumPhotoBlurredEnding: string := "_albumblurred.jpg"

  /** A directory name distinct from the full-resolution and the blur directories. */
  type OptimizedDir = s: string | s != "watermarked" && s != "blur" witness "web"

  /** The optimized-variant directory; its value is not fixed by data/globals.ts. */
  const OptimizedDirName: OptimizedDir
}
