/**
 * Build-time constants of the firmware. Their values live in config.hpp,
 * which is not part of this model, so each is an unspecified constant whose
 * type states only what the code relies on.
 */
module Config {

  type Positive = n: int | 1 <= n witness 1

  /** Playback-queue slots are `uint16_t`, so song ids must fit in 16 bits. */
  type LibraryCapacity = n: int | 1 <= n <= 0x1_0000 witness 1

  /** MAX_LIBRARY_FILES: capacity of the catalog, offset table and queue. */
  const MaxLibraryFiles: LibraryCapacity

  /** FILE_PATH_CACHE_SIZE: slots of the song-id -> path cache. */
  const FilePathCacheSize: Positive

  /** MAX_BROWSER_ENTRIES: capacity of the folder-browser listing. */
  const MaxBrowserEntries: Positive

  /** MAX_NETWORK_TRACKS: capacity of the streaming track list. */
  const MaxNetworkTracks: Positive

  /** MUSIC_DIR: default scope of the playback queue and of the browser. */
  const MusicDir: string

  /** SCROLL_INITIAL_POS: initial scroll offset of the selected list row. */
  const ScrollInitialPos: int

  /** LIBRARY_SCAN_MAX_DEPTH: directory levels the index builder descends (a uint8_t). */
  const LibraryScanMaxDepth: nat

  /** SCREEN_WIDTH and SCREEN_HEIGHT of the display, in pixels. */
  const ScreenWidth: Positive
  const ScreenHeight: Positive
}
