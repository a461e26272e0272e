/**
  The enum-to-name tables of VulkanUtils.h. Each table is a `switch` from a raw
  Vulkan enum value to the constant's name, with "Unspecified" (and a log line,
  not modelled) for every value outside the table.
 */
module VulkanUtils {

  const UNSPECIFIED: string := "Unspecified"

  // VkSampleCountFlagBits
  const VK_SAMPLE_COUNT_1_BIT: int := 1
  const VK_SAMPLE_COUNT_2_BIT: int := 2
  const VK_SAMPLE_COUNT_4_BIT: int := 4
  const VK_SAMPLE_COUNT_8_BIT: int := 8
  const VK_SAMPLE_COUNT_16_BIT: int := 16
  const VK_SAMPLE_COUNT_32_BIT: int := 32
  const VK_SAMPLE_COUNT_64_BIT: int := 64

  // VkPresentModeKHR
  const VK_PRESENT_MODE_IMMEDIATE_KHR: int := 0
  const VK_PRESENT_MODE_MAILBOX_KHR: int := 1
  const VK_PRESENT_MODE_FIFO_KHR: int := 2
  const VK_PRESENT_MODE_FIFO_RELAXED_KHR: int := 3

  // VkFormat
  const VK_FORMAT_B8G8R8A8_UNORM: int := 44
  const VK_FORMAT_B8G8R8A8_SRGB: int := 50
  const VK_FORMAT_A2B10G10R10_UNORM_PACK32: int := 64
  const VK_FORMAT_R16G16B16A16_SFLOAT: int := 97

  // VkColorSpaceKHR; VK_COLORSPACE_SRGB_NONLINEAR_KHR is the legacy alias of
  // VK_COLOR_SPACE_SRGB_NONLINEAR_KHR and has the same value
  const VK_COLORSPACE_SRGB_NONLINEAR_KHR: int := 0
  const VK_COLOR_SPACE_EXTENDED_SRGB_LINEAR_EXT: int := 1000104002
  const VK_COLOR_SPACE_HDR10_ST2084_EXT: int := 1000104008

  /** The seven single-bit sample counts, 2^0 .. 2^6. */
  predicate IsSampleCountBit(samples: int) {
    samples == 1 || samples == 2 || samples == 4 || samples == 8 ||
    samples == 16 || samples == 32 || samples == 64
  }

  /** Decimal spelling of a natural number. */
  function Decimal(n: nat): (r: string)
    ensures |r| > 0
    ensures forall k :: 0 <= k < |r| ==> '0' <= r[k] <= '9'
  {
    var digit := ['0' + (n % 10) as char];
    if n < 10 then digit else Decimal(n / 10) + digit
  }

  function VkSampleCountFlagBitsStr(samples: int): (r: string)
    ensures r != UNSPECIFIED <==> IsSampleCountBit(samples)
    ensures IsSampleCountBit(samples) ==> r == "VK_SAMPLE_COUNT_" + Decimal(samples) + "_BIT"
  {
    if samples == VK_SAMPLE_COUNT_1_BIT then "VK_SAMPLE_COUNT_1_BIT"
    else if samples == VK_SAMPLE_COUNT_2_BIT then "VK_SAMPLE_COUNT_2_BIT"
    else if samples == VK_SAMPLE_COUNT_4_BIT then "VK_SAMPLE_COUNT_4_BIT"
    else if samples == VK_SAMPLE_COUNT_8_BIT then "VK_SAMPLE_COUNT_8_BIT"
    else if samples == VK_SAMPLE_COUNT_16_BIT then "VK_SAMPLE_COUNT_16_BIT"
    else if samples == VK_SAMPLE_COUNT_32_BIT then "VK_SAMPLE_COUNT_32_BIT"
    else if samples == VK_SAMPLE_COUNT_64_BIT then "VK_SAMPLE_COUNT_64_BIT"
    else UNSPECIFIED
  }

  predicate IsKnownPresentMode(mode: int) {
    VK_PRESENT_MODE_IMMEDIATE_KHR <= mode <= VK_PRESENT_MODE_FIFO_RELAXED_KHR
  }

  function VkPresentModeKHRStr(mode: int): (r: string)
    ensures r != UNSPECIFIED <==> IsKnownPresentMode(mode)
    ensures IsKnownPresentMode(mode) ==> |r| > 16 && r[..16] == "VK_PRESENT_MODE_" && r[|r| - 4..] == "_KHR"
  {
    if mode == VK_PRESENT_MODE_FIFO_KHR then "VK_PRESENT_MODE_FIFO_KHR"
    else if mode == VK_PRESENT_MODE_FIFO_RELAXED_KHR then "VK_PRESENT_MODE_FIFO_RELAXED_KHR"
    else if mode == VK_PRESENT_MODE_IMMEDIATE_KHR then "VK_PRESENT_MODE_IMMEDIATE_KHR"
    else if mode == VK_PRESENT_MODE_MAILBOX_KHR then "VK_PRESENT_MODE_MAILBOX_KHR"
    else UNSPECIFIED
  }

  predicate IsKnownFormat(format: int) {
    format == VK_FORMAT_B8G8R8A8_SRGB || format == VK_FORMAT_B8G8R8A8_UNORM ||
    format == VK_FORMAT_R16G16B16A16_SFLOAT || format == VK_FORMAT_A2B10G10R10_UNORM_PACK32
  }

  function VkFormatStr(format: int): (r: string)
    ensures r != UNSPECIFIED <==> IsKnownFormat(format)
    ensures IsKnownFormat(format) ==> |r| > 10 && r[..10] == "VK_FORMAT_"
  {
    if format == VK_FORMAT_B8G8R8A8_SRGB then "VK_FORMAT_B8G8R8A8_SRGB"
    else if format == VK_FORMAT_B8G8R8A8_UNORM then "VK_FORMAT_B8G8R8A8_UNORM"
    else if format == VK_FORMAT_R16G16B16A16_SFLOAT then "VK_FORMAT_R16G16B16A16_SFLOAT"
    else if format == VK_FORMAT_A2B10G10R10_UNORM_PACK32 then "VK_FORMAT_A2B10G10R10_UNORM_PACK32"
    else UNSPECIFIED
  }

  predicate IsKnownColorSpace(space: int) {
    space == VK_COLORSPACE_SRGB_NONLINEAR_KHR || space == VK_COLOR_SPACE_EXTENDED_SRGB_LINEAR_EXT ||
    space == VK_COLOR_SPACE_HDR10_ST2084_EXT
  }

  /** The legacy spelling VK_COLORSPACE_... is reported under the current
      spelling VK_COLOR_SPACE_..., so every known name has that prefix. */
  function VkColorSpaceKHRStr(space: int): (r: string)
    ensures r != UNSPECIFIED <==> IsKnownColorSpace(space)
    ensures IsKnownColorSpace(space) ==> |r| > 15 && r[..15] == "VK_COLOR_SPACE_"
    ensures space == VK_COLORSPACE_SRGB_NONLINEAR_KHR ==> r == "VK_COLOR_SPACE_SRGB_NONLINEAR_KHR"
  {
    if space == VK_COLORSPACE_SRGB_NONLINEAR_KHR then "VK_COLOR_SPACE_SRGB_NONLINEAR_KHR"
    else if space == VK_COLOR_SPACE_EXTENDED_SRGB_LINEAR_EXT then "VK_COLOR_SPACE_EXTENDED_SRGB_LINEAR_EXT"
    else if space == VK_COLOR_SPACE_HDR10_ST2084_EXT then "VK_COLOR_SPACE_HDR10_ST2084_EXT"
    else UNSPECIFIED
  }

  /** Distinct sample-count bits get distinct names. */
  lemma SampleCountNamesDistinct(a: int, b: int)
    requires a != b && IsSampleCountBit(a) && IsSampleCountBit(b)
    ensures VkSampleCountFlagBitsStr(a) != VkSampleCountFlagBitsStr(b)
  {
    DecimalInjective(a, b);
    SampleCountDigits(a);
    SampleCountDigits(b);
  }

  /** The digits between "VK_SAMPLE_COUNT_" and "_BIT" spell the count. */
  lemma SampleCountDigits(samples: int)
    requires IsSampleCountBit(samples)
    ensures var r := VkSampleCountFlagBitsStr(samples); |r| >= 20 && r[16..|r| - 4] == Decimal(samples)
  {
    var d := Decimal(samples);
    assert |"VK_SAMPLE_COUNT_"| == 16;
    assert ("VK_SAMPLE_COUNT_" + d + "_BIT")[16..16 + |d|] == d;
  }

  /** Distinct known present modes get distinct names. */
  lemma PresentModeNamesDistinct(a: int, b: int)
    requires a != b && IsKnownPresentMode(a) && IsKnownPresentMode(b)
    ensures VkPresentModeKHRStr(a) != VkPresentModeKHRStr(b)
  {
    assert VkPresentModeKHRStr(a)[16] != VkPresentModeKHRStr(b)[16] || |VkPresentModeKHRStr(a)| != |VkPresentModeKHRStr(b)|;
  }

  /** Distinct known formats get distinct names. */
  lemma FormatNamesDistinct(a: int, b: int)
    requires a != b && IsKnownFormat(a) && IsKnownFormat(b)
    ensures VkFormatStr(a) != VkFormatStr(b)
  {
    assert VkFormatStr(a)[10] != VkFormatStr(b)[10] || VkFormatStr(a)[|VkFormatStr(a)| - 1] != VkFormatStr(b)[|VkFormatStr(b)| - 1];
  }

  /** Distinct known colour spaces get distinct names. */
  lemma ColorSpaceNamesDistinct(a: int, b: int)
    requires a != b && IsKnownColorSpace(a) && IsKnownColorSpace(b)
    ensures VkColorSpaceKHRStr(a) != VkColorSpaceKHRStr(b)
  {
    assert VkColorSpaceKHRStr(a)[15] != VkColorSpaceKHRStr(b)[15] || |VkColorSpaceKHRStr(a)| != |VkColorSpaceKHRStr(b)|;
  }

  /** Distinct numbers have distinct decimal spellings. */
  lemma {:induction false} DecimalInjective(a: nat, b: nat)
    requires a != b
    ensures Decimal(a) != Decimal(b)
  {
    var da, db := Decimal(a), Decimal(b);
    if a < 10 && b < 10 {
      assert da[0] != db[0];
    } else if a < 10 || b < 10 {
      assert |da| != |db|;
    } else if a % 10 != b % 10 {
      assert da[|da| - 1] != db[|db| - 1];
    } else {
      DecimalInjective(a / 10, b / 10);
      assert da[..|da| - 1] == Decimal(a / 10);
      assert db[..|db| - 1] == Decimal(b / 10);
    }
  }
}
