/** Constants shared by both ends (src/config.rs, src/connection/data.rs, src/audio/oboe.rs). */
module Config {
  const RAW_PCM_AUDIO_UDP_DATA_SIZE_IN_SAMPLES: nat := 240
  const RAW_PCM_AUDIO_UDP_DATA_SIZE_IN_BYTES: nat := 480
  const PACKET_COUNTER_SIZE: nat := 4
  const PCM_AUDIO_PACKET_SIZE_IN_BYTES: nat := 484
  /** Such a packet in a TCP stream. */
  const FRAME_SIZE: nat := 486

  /** Largest packet of any data connection. */
  const MAX_PACKET_SIZE: nat := 65_507

  const AUDIO_BLOCK_FRAME_COUNT: nat := 8
  const AUDIO_BLOCK_SAMPLE_COUNT: nat := 16
  const OBOE_BUFFER_BURST_COUNT: int := 2

  const DIRECT_MODE_BUFFERING_COUNT: nat := 1
}
