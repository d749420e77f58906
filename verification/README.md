# A model of the NXT services and their cipher library

This project models, in Dafny, the parts of the repository in which something can go wrong that no
single function shows:

- **Counter mode over an arbitrary block cipher** (`Counter`, `Ctr`). The keystream state machine, with
  its lazily filled pad, its two byte orders and widths and its word-at-a-time path, is a class whose
  methods refine a closed form. The closed form composes over calls and inverts itself.
- **Block ciphers** (`Khazad`, `Anubis`, `Noekeon`, `Rc6`, `Rc5`, `Rc2`, `Des`, `Xtea`, `Multi2`, `Skipjack`).
  For each the loops are proved to compute a specification, and the specification's decryption is proved
  to invert its encryption, for all keys and blocks. What the ciphers rest on is proved once and for any
  elements: Hadamard matrices over characteristic 2 (`Hadamard`, `Gf256`, `Diffusion`), ciphers of
  involutions (`InvolutionalCipher`), the key expansion that RC5 and RC6 share (`RivestKeys`). DES is also
  proved to be the cipher of FIPS 46-3, stated by its own tables (`DesStandard`).
- **The chain follower** (`ChainFollower`). Two threads over shared fields, as a step relation whose runs
  are all sequences of moves and server replies.
- **The asset ledger** (`Postings`, `Ledger`, `History`). A class with shared account objects and a ghost log
  of everything transferred, the two-pass replay it is compared with, and what the two agree on after any
  sequence of recorded transactions.
- **The order books** (`OrderBook`, `Quotes`) and **the denomination splitter** (`Telepods`).

`Words`, `WideWords`, `Division` and `Sequences` hold what several of them need; the modules whose names
end in `Tables` hold the ciphers' constant tables, written as decisions on the index.

## How it is built

Structure is proved over type parameters and function-valued records with stated laws, never over
machine words; the words are plugged in at the end, where a few small lemmas give the laws. A method that
follows a loop of the source is proved against a function or predicate of its inputs; functions that only
compute are stated by the lemmas about them. Where a loop invariant names a recursive function, it is stated
of every value equal to the given one, so that the function is unfolded only in the step that names it.

Block ids, asset ids and amounts are natural numbers where their width plays no part. Where it does it
is written out: bit-vectors in the ciphers and in the ids of order books, arithmetic modulo 2^64 in the
ledger and the splitter.

## Where the code and what one would expect differ

- MULTI2 decryption inverts encryption for all 40-byte keys exactly for round counts divisible by 8
  (`Multi2.InvertsExactlyAtMultiplesOf8`); the setup accepts any round count. The keys and blocks for which
  the other counts fail are given, with the working keys that the setup makes of them.
- The chain follower can process a block other than the one it has recorded. It reads a block id, processes
  the block and only then publishes the height, and a walk-back in between replaces the id unnoticed. The
  processed block is the recorded one exactly if the array still held its id when the height was published
  (`ChainFollower.ProcessedIsRecordedExactly`); the window is always open (`ChainFollower.WindowIsOpen`).
- A block at a height past the fixed array is reported as changed although nothing is written
  (`ChainFollower.ChangeReported`).
- A transaction with an empty address is logged and not transferred. Where the replay and the incremental table
  agreed before it, they agree after it exactly if it moves nothing: if its quantity is a multiple of 2^64, or
  both its addresses denote the same account, an empty one being account 0 (`Ledger.Ledger.Record`,
  `Ledger.Ledger.ReplayAfterRecord`, `Ledger.EmptyReceiver`). After a whole sequence of recordings they agree
  exactly if the transactions so stranded give every account 0 modulo 2^64 (`History.ReplayHistory`).
- The splitter makes at most (S - 1) / (10000 m) + 19 pieces, and no smaller bound of this form holds
  (`Telepods.RunLength`, `Telepods.RunLengthAttained`). It ends for no amount if the
  minimum is 0 or its product with a denomination wraps to 0, and otherwise for every amount
  (`Telepods.EndsExactly`).
- The shown price of an order does not change with the polarity; only its side does
  (`Quotes.SidesShowOrders`).

## Model

| member | source | states |
|---|---|---|
| Words.RorRol | plugins/includes/libtom/tomcrypt_macros.h:335-336 | rotating right by any amount, taken modulo 32, undoes rotating left by it |
| Words.BothByteOrders | plugins/includes/libtom/tomcrypt_macros.h:195-220 | storing after loading, and loading after storing, give back the bytes and the word, in both byte orders |
| Words.QuadBlocks | plugins/includes/libtom/tomcrypt_macros.h:195-220 | a 16-byte block read as four words and written back is the same block, and the reverse, for any byte order that is invertible |
| Hadamard.Squares | NXTservices/khazad.c:655-672 | over GF(2^8), or any characteristic-2 space with a doubling, a Hadamard matrix of any size 2^n squares to the square of the sum of its row, times the identity |
| Hadamard.HornerIsPowerSum | NXTservices/anubis.c:947-971 | the Horner loop of the key selection evaluates the polynomial sum with increasing powers |
| Diffusion.ThetaInvolution | NXTservices/khazad.c:655-672 | a diffusion layer by such a matrix whose row sums to 1 is its own inverse on words of any faithful coding |
| Diffusion.ThetaLinear | NXTservices/khazad.c:655-672 | the diffusion layer distributes over exclusive or |
| Diffusion.GammaInvolution | NXTservices/khazad.c:677-737 | bytewise substitution by an involution is an involution |
| Diffusion.EightTables | NXTservices/khazad.c:699-709 | the exclusive or of eight lookups, one column of the matrix each, is the matrix applied to the eight bytes |
| Diffusion.FourTables | NXTservices/anubis.c:1061-1090 | the exclusive or of four lookups, one column of the matrix each, is the matrix applied to the four bytes |
| Diffusion.SubstituteTransposeInvolution | NXTservices/anubis.c:1061-1090 | substituting the bytes of the 4 by 4 state and transposing it is an involution, because the two commute |
| InvolutionalCipher.CryptInverts | NXTservices/khazad.c:655-672 | for involutions gamma and theta, theta linear, running the cipher under the reversed schedule with theta on its middle keys undoes running it under the schedule, for every number of rounds |
| Khazad.Table0 | NXTservices/khazad.c:40-105 | the first table is the S-box followed by the first column of the matrix had(1,3,4,5,6,8,B,7), entry by entry; its seven companions say the same of the others |
| Khazad.SboxInvolution | NXTservices/khazad.c:509-574 | the S-box read off the last byte of the eighth table is its own inverse |
| Khazad.LayersAreInvolutions | NXTservices/khazad.c:677-737 | both layers of the cipher are involutions, and the diffusion is linear |
| Khazad.RoundConstantsFromSbox | NXTservices/khazad.c:576-586 | the first five round constants are the S-box read off in order, eight bytes to a constant |
| Khazad.MoreRoundConstantsFromSbox | NXTservices/khazad.c:576-586 | and so are the other four |
| Khazad.EncryptionKeys | NXTservices/khazad.c:613-653 | the setup loop makes the two key halves and then, key by key, a Feistel network whose round function is the cipher's round with the round constant |
| Khazad.DecryptionKeys | NXTservices/khazad.c:655-672 | the second loop makes the reversed schedule with the diffusion applied to all keys but the outer two |
| Khazad.Setup | NXTservices/khazad.c:596-675 | the error for every wrong key length or round count, else both schedules |
| Khazad.FullRound | NXTservices/khazad.c:699-709 | the eight lookups and exclusive ors are substitution, diffusion and key addition |
| Khazad.LastRound | NXTservices/khazad.c:715-724 | the masks leave the substitution alone: substitution and key addition without diffusion |
| Khazad.KhazadCrypt | NXTservices/khazad.c:677-737 | the in-place state loop computes the eight-round cipher under any nine round keys |
| Khazad.DecryptInvertsEncrypt | NXTservices/khazad.c:746-772 | decryption inverts encryption for every key and every block |
| Anubis.Table0 | NXTservices/anubis.c:471-536 | the first table is the S-box followed by the first column of had(1,2,4,6), entry by entry; likewise the next three |
| Anubis.SboxInvolution | NXTservices/anubis.c:739-804 | the S-box replicated in the fifth table is its own inverse |
| Anubis.LayersAreInvolutions | NXTservices/anubis.c:1039-1130 | substitution with transposition and mixing are involutions, and mixing is linear for key addition |
| Anubis.HornerQuadIs | NXTservices/anubis.c:947-983 | the four Horner chains over the key words give the four words of the Vandermonde key extraction |
| Anubis.SelectKey | NXTservices/anubis.c:947-983 | the descending loop computes that extraction for any number of words |
| Anubis.EvolveKey | NXTservices/anubis.c:989-1004 | the loop with its wrapping index computes the key evolution: a byte-wise cyclic permutation, substitution and mixing, and the round constant |
| Anubis.RoundConstantsFromSbox | NXTservices/anubis.c:876-894 | the first round constants are the S-box read off in order, four bytes to a constant |
| Anubis.MoreRoundConstantsFromSbox | NXTservices/anubis.c:876-894 | and so are the next ones |
| Anubis.LastRoundConstantsFromSbox | NXTservices/anubis.c:876-894 | and the three after those |
| Anubis.FinalRoundConstantsFromSbox | NXTservices/anubis.c:876-894 | and the last two |
| Anubis.EncryptionKeys | NXTservices/anubis.c:930-1005 | for 4 to 10 key words the loop makes all round keys, each from the key state evolved that many times |
| Anubis.DecryptionKeys | NXTservices/anubis.c:1007-1024 | the second loop makes the reversed schedule with mixing applied to all keys but the outer two |
| Anubis.Setup | NXTservices/anubis.c:897-1027 | the error for every wrong key length or round count, else both schedules |
| Anubis.FullRound | NXTservices/anubis.c:1061-1090 | sixteen lookups and exclusive ors are substitution with transposition, mixing and key addition |
| Anubis.LastRound | NXTservices/anubis.c:1093-1117 | the masks leave the substitution alone |
| Anubis.AnubisCrypt | NXTservices/anubis.c:1039-1130 | the loop computes the cipher under any list of at least two round keys |
| Anubis.DecryptInvertsEncrypt | NXTservices/anubis.c:1139-1163 | decryption inverts encryption for every key of every length from 4 to 10 words and every block |
| Noekeon.ThetaUndone | NXTservices/noekeon.c:41-51 | THETA under the kTHETA-transformed key undoes THETA under the key |
| Noekeon.GammaTwice | NXTservices/noekeon.c:53-59 | GAMMA is its own inverse |
| Noekeon.PiInverse | NXTservices/noekeon.c:61-65 | PI1 and PI2 undo each other |
| Noekeon.NonLinearInvolution | NXTservices/noekeon.c:131-133 | PI1, GAMMA and PI2 in sequence are an involution |
| Noekeon.ThetaMacro | NXTservices/noekeon.c:47-51 | the in-place macro computes the layer: spreading, key, spreading |
| Noekeon.GammaMacro | NXTservices/noekeon.c:53-59 | the in-place macro with its temporary computes the non-linear layer |
| Noekeon.RoundConstantsDouble | NXTservices/noekeon.c:33-39 | each round constant is the one before it doubled in GF(2^8) |
| Noekeon.Setup | NXTservices/noekeon.c:75-103 | the error for every wrong key length or round count, else the key and its kTHETA transform |
| Noekeon.DecryptedEncrypted | NXTservices/noekeon.c:128-197 | the decryption loop, with its constants one place later and its final THETA, undoes the encryption loop for any number of rounds |
| Noekeon.EncryptRounds | NXTservices/noekeon.c:128-142 | the loop computes the sixteen rounds and the final half round |
| Noekeon.DecryptRounds | NXTservices/noekeon.c:183-197 | the descending loop computes the decryption rounds |
| Noekeon.DecryptInvertsEncrypt | NXTservices/noekeon.c:112-201 | decryption inverts encryption for every key and every block |
| RivestKeys.StabIsProgression | NXTservices/rc5.c:35-43 | the table of 50 words starts at P32 and goes up by Q32 |
| RivestKeys.FullWord | NXTservices/rc5.c:82-88 | four bytes shifted in and byte-swapped are a little-endian word of the key |
| RivestKeys.PartialWord | NXTservices/rc5.c:90-93 | an incomplete last word, shifted up and byte-swapped, is the zero-padded little-endian word |
| RivestKeys.LoadKey | NXTservices/rc5.c:81-93 | for every key length from 8 to 128 the loop loads the key as zero-padded little-endian words |
| RivestKeys.Mix | NXTservices/rc5.c:99-107 | the loop with its two wrapping indices mixes both arrays cyclically, every index in range |
| RivestKeys.EveryWordThrice | NXTservices/rc5.c:100-106 | among the 3 * max(t, c) steps every word of the expanded key is mixed three times, once in each pass over it |
| RivestKeys.EveryKeyWordThrice | NXTservices/rc5.c:100-106 | and so is every word of the key |
| RivestKeys.UnstirStir | NXTservices/rc6.c:139-206 | exclusive or, data-dependent rotation and addition are undone by subtraction, rotation back and exclusive or |
| Rc6.FourRounds | NXTservices/rc6.c:139-151 | four round macros with renamed registers are four textbook rounds, each followed by (a,b,c,d) = (b,c,d,a) |
| Rc6.FourUnrounds | NXTservices/rc6.c:193-206 | and the same for decryption |
| Rc6.RoundsInverse | NXTservices/rc6.c:134-212 | the textbook rounds backwards undo the rounds, whatever the data-dependent rotations and whatever the schedule |
| Rc6.EncryptRounds | NXTservices/rc6.c:136-156 | the unrolled loop with its moving key pointer computes the textbook cipher |
| Rc6.DecryptRounds | NXTservices/rc6.c:190-211 | the unrolled loop computes textbook decryption |
| Rc6.Setup | NXTservices/rc6.c:53-104 | the error for every wrong round count or key length, else the expanded key of 44 words |
| Rc6.DecryptInvertsEncrypt | NXTservices/rc6.c:123-215 | decryption inverts encryption for every schedule and every block |
| Rc5.RoundsInverse | NXTservices/rc5.c:146-214 | any number of rounds backwards undo the rounds |
| Rc5.EncryptRounds | NXTservices/rc5.c:142-160 | the loop unrolled by two for even round counts and the plain loop for odd ones compute the same rounds |
| Rc5.DecryptRounds | NXTservices/rc5.c:197-216 | and the same for decryption |
| Rc5.Setup | NXTservices/rc5.c:56-109 | the error for every wrong round count or key length, else the expanded key of 2(r + 1) words, for 12 to 24 rounds |
| Rc5.DecryptInvertsEncrypt | NXTservices/rc5.c:129-221 | decryption inverts encryption for every number of rounds and every block |
| Rc2.LowUp | NXTservices/rc2.c:155-165 | on the low 16 bits a mixing step that leaves bits above 16 behind is the 16-bit step |
| Rc2.LowDown | NXTservices/rc2.c:241-251 | a step backwards on a clean register is the 16-bit step backwards, whatever the other registers hold above bit 16 |
| Rc2.MixRegisters | NXTservices/rc2.c:155-165 | one mixing round on the registers, as the 16-bit round |
| Rc2.MashRegisters | NXTservices/rc2.c:167-172 | one mashing round on the registers, as the 16-bit round |
| Rc2.RoundsAreRfc | NXTservices/rc2.c:154-173 | sixteen rounds with mashing after rounds 5 and 11 are the schedule of section 3 of RFC 2268: five mixing rounds, mash, six, mash, five |
| Rc2.UnroundsRounds | NXTservices/rc2.c:233-252 | the rounds of section 4 of RFC 2268 undo those of section 3 |
| Rc2.EncryptRegisters | NXTservices/rc2.c:154-173 | the loop over the dirty registers computes the 16-bit rounds in their low halves |
| Rc2.DecryptRegisters | NXTservices/rc2.c:233-252 | the descending loop computes the 16-bit rounds backwards |
| Rc2.Stretch | NXTservices/rc2.c:88-97 | the first phase in place: every byte after the key is the table at the sum of the byte before it and the byte a key length before it (RFC 2268, section 2) |
| Rc2.Reduce | NXTservices/rc2.c:99-106 | the second phase in place, backwards: the pivot and then every byte before it from the byte after it and the byte T8 after it |
| Rc2.EffectiveBits | NXTservices/rc2.c:100-102 | with 8 * keylen effective bits, T8 is the key length and the mask is 255 |
| Rc2.ScheduleUnique | NXTservices/rc2.c:88-111 | the two phases leave only one possible schedule for a key |
| Rc2.Setup | NXTservices/rc2.c:70-118 | the error for every wrong key length or round count, else that schedule |
| Rc2.DecryptInvertsEncrypt | NXTservices/rc2.c:135-261 | decryption inverts encryption for every schedule and every block |
| Des.ReversedRoundsInvert | NXTservices/des.c:1450-1472 | a Feistel network of any length under the reversed keys undoes itself, with the halves swapped |
| Des.RegistersAre | NXTservices/des.c:1326-1341 | rotating by running totals is rotating the two key registers step by step |
| Des.RotationsOfTheStandard | NXTservices/des.c:1318-1341 | with the tables of the code the registers are rotated by 1, 1, 2, 2, ... as in FIPS 46-3 |
| Des.DesKey | NXTservices/des.c:1306-1353 | with DE1 the key words are placed so that the schedule is that of EN0 in reverse order, pair by pair, through cookey |
| Des.ExchangeTwice | NXTservices/des.c:1412-1426 | every swap-move is its own inverse |
| Des.PermutationsInverse | NXTservices/des.c:1411-1492 | the swap-move initial and final permutations are mutually inverse |
| Des.InitialIsNumbered | NXTservices/des.c:1411-1433 | the swap-moves compute the permutation IP as FIPS 46-3 numbers its bits, with both halves rotated left by one |
| Des.InitialPermutation | NXTservices/des.c:1411-1433 | the in-place steps are the initial permutation |
| Des.FinalPermutation | NXTservices/des.c:1474-1510 | the in-place steps and the crossed stores are the final permutation of the swapped halves |
| Des.SixteenRounds | NXTservices/des.c:1450-1472 | the loop of eight double rounds with a moving key pointer computes sixteen Feistel rounds |
| Des.DesFunc | NXTservices/des.c:1400-1511 | the routine computes permutation, sixteen rounds, swap and permutation back |
| Des.ReversedKeysDecipher | NXTservices/des.c:1400-1511 | under reversed keys the routine inverts itself, in both directions |
| Des.DesSetup | NXTservices/des.c:1529-1546 | the error for every wrong round count or key length, else both schedules |
| Des.DesDecryptInvertsEncrypt | NXTservices/des.c:1587-1620 | DES decryption inverts encryption for every key and every block |
| Des.Des3Setup | NXTservices/des.c:1556-1578 | the error for every wrong round count or key length, else the six schedules of EDE in both directions |
| Des.Des3DecryptInvertsEncrypt | NXTservices/des.c:1629-1667 | EDE decryption inverts EDE encryption for every key and every block |
| DesStandard.TablesAreBoxes | NXTservices/des.c:90-248 | the eight tables together are the eight S-boxes of FIPS 46-3 and then its permutation P, rotated left by one |
| DesStandard.RoundFunctionIsStandard | NXTservices/des.c:1450-1472 | under a cooked key, on halves rotated left by one, the round is the cipher function f of FIPS 46-3: expansion E, addition of the key, S-boxes, P |
| DesStandard.RoundsConjugate | NXTservices/des.c:1450-1472 | rounds on transformed words under transformed keys are the transformed rounds, for any round functions related in this way |
| DesStandard.StandardKeysCooked | NXTservices/des.c:1306-1396 | the stored round keys are those of FIPS 46-3, PC-2 of the stepwise rotated registers that PC-1 fills, rearranged by cookey |
| DesStandard.EncipheringIsStandard | NXTservices/des.c:1400-1511 | for every key and block, IP of the output is the exchanged result of sixteen rounds of FIPS 46-3 on IP of the input |
| Xtea.SumIsMultiple | NXTservices/xtea.c:50-60 | after x steps the running sum is x times 0x9E3779B9 modulo 2^32 |
| Xtea.RoundsAreReference | NXTservices/xtea.c:50-60 | rounds from the precomputed schedule are the rounds of the running-sum cipher |
| Xtea.WideAddIs | NXTservices/xtea.c:85-101 | a half round in wider words with masking is the 32-bit half round |
| Xtea.WideSubIs | NXTservices/xtea.c:121-137 | and so is a half round backwards |
| Xtea.Setup | NXTservices/xtea.c:34-66 | the error for every wrong key length or round count, else both halves of the schedule in place |
| Xtea.EncryptRounds | NXTservices/xtea.c:85-99 | the loop unrolled by four computes the 32 rounds |
| Xtea.DecryptRounds | NXTservices/xtea.c:121-137 | the descending loop computes them backwards |
| Xtea.DecryptInvertsEncrypt | NXTservices/xtea.c:76-139 | decryption inverts encryption for every key and every block |
| Multi2.PiTwice | NXTservices/multi2.c:20-52 | each of the four steps is its own inverse |
| Multi2.MakeKey | NXTservices/multi2.c:54-80 | the working key is what eight of the first nine rounds of the cipher leave behind, word by word |
| Multi2.EncryptWords | NXTservices/multi2.c:82-92 | the loop with its four exits computes n rounds, for every positive n |
| Multi2.DecryptWords | NXTservices/multi2.c:94-107 | the loop with its fall-through ends, and peels off whole groups of four from the key half that the parity of n selects, for every positive n |
| Multi2.InvertsAtMultiplesOf8 | NXTservices/multi2.c:82-107 | for every n divisible by 8 decryption inverts encryption, the key half toggling in step from both ends |
| Multi2.OddKeyMade | NXTservices/multi2.c:54-80 | a 40-byte key of which the setup makes a working key whose first half fixes two states and whose second half exchanges them |
| Multi2.OddGroupsFail | NXTservices/multi2.c:97-98 | for n = 4 modulo 8 decryption starts with the wrong key half: under such a key the one state comes out as the other, for every such n |
| Multi2.OddGroupsFailFor | NXTservices/multi2.c:82-107 | and so a block does not come back |
| Multi2.WholeKeyMade | NXTservices/multi2.c:54-80 | a 40-byte key of which the setup makes a working key both of whose halves fix one state, which one, two or three rounds do not |
| Multi2.LeftoverRoundsFail | NXTservices/multi2.c:97-98 | for n not divisible by 4 the leftover rounds are not undone: under such a key that state does not come back, for every such n |
| Multi2.LeftoverRoundsFailFor | NXTservices/multi2.c:82-107 | and so a block does not come back |
| Multi2.InvertsExactlyAtMultiplesOf8 | NXTservices/multi2.c:54-107 | for every positive n, decryption inverts encryption for all 40-byte keys, as the setup expands them, and all blocks if and only if n is divisible by 8 |
| Multi2.Setup | NXTservices/multi2.c:122-144 | the error for every wrong key length, else the working key, with 128 rounds by default |
| Multi2.DecryptInvertsEncrypt | NXTservices/multi2.c:153-186 | decryption of a block inverts encryption whenever the number of rounds is a multiple of 8 |
| Skipjack.StepTables | NXTservices/skipjack.c:53-57 | the two step tables move the key cursor forwards and backwards modulo 10 |
| Skipjack.FourSteps | NXTservices/skipjack.c:112-134 | four steps forwards move the cursor by 4 modulo 10, and four steps backwards undo them |
| Skipjack.GFunc | NXTservices/skipjack.c:112-122 | the permutation G computed with a moving cursor, which ends four places on |
| Skipjack.IGFunc | NXTservices/skipjack.c:124-134 | its inverse computed with the cursor moving back, which ends four places back |
| Skipjack.IGofG | NXTservices/skipjack.c:112-134 | started where G ended, its inverse undoes it |
| Skipjack.RulesUndone | NXTservices/skipjack.c:90-110 | the backward rules undo rules A and B for every counter value |
| Skipjack.CursorReturns | NXTservices/skipjack.c:226-248 | 32 steps leave the cursor at 8, and from 8 the 32 backward steps undo them and return it to 0 |
| Skipjack.EncryptWords | NXTservices/skipjack.c:162-180 | the four loops apply 8 steps of rule A, 8 of B, 8 of A and 8 of B |
| Skipjack.DecryptWords | NXTservices/skipjack.c:226-248 | the four descending loops undo them |
| Skipjack.DecryptInvertsEncrypt | NXTservices/skipjack.c:146-257 | decryption inverts encryption for every key and every block |
| Counter.NextLittleAddsOne | NXTservices/ciphers.h:367-375 | the carry loop from the first byte adds exactly 1 modulo 256^n |
| Counter.NextBigAddsOne | NXTservices/ciphers.h:377-385 | the carry loop from the last byte adds exactly 1 modulo 256^n |
| Counter.AdvanceAdds | NXTservices/ciphers.h:364-386 | advancing j times adds j to the counter field modulo 256^width and leaves every other byte alone, in both byte orders and every width (NIST SP 800-38A, Appendix B.1) |
| Counter.BlockDetermined | NXTservices/ciphers.h:364-386 | these two facts leave only one possible block |
| Counter.RepeatsExactly | NXTservices/ciphers.h:364-386 | two counter blocks are equal if and only if the number of steps between them is a multiple of 256^width, so none repeats before all have been used (NIST SP 800-38A, Appendix B.1) |
| Counter.IncrementLittle | NXTservices/ciphers.h:367-375 | the loop in place, with its early exit |
| Counter.IncrementBig | NXTservices/ciphers.h:377-385 | the loop in place, with its early exit |
| Ctr.SymmetricCtr.Start | NXTservices/ciphers.h:279-329 | every error return, and otherwise the starting state: counter block (incremented once for RFC 3686), width, byte order, an unused pad |
| Ctr.SymmetricCtr.Increment | NXTservices/ciphers.h:364-386 | the counter block moves on by one, in the byte order and width of the state |
| Ctr.SymmetricCtr.FillPad | NXTservices/ciphers.h:387-390 | the pad is the cipher of the counter block, and unused |
| Ctr.XorBlock | NXTservices/ciphers.h:392-405 | the word-at-a-time path writes the exclusive or of a block and the pad, and nothing else, even in place |
| Ctr.SymmetricCtr.Encrypt | NXTservices/ciphers.h:339-411 | every error return leaves all unchanged; otherwise output byte k is text byte k exclusive or byte (n + k) mod blocklen of the cipher of the counter block advanced (n + k) / blocklen times, by either path, also in place, and the state stands behind the text (NIST SP 800-38A, section 6.5) |
| Ctr.SymmetricCtr.Decrypt | NXTservices/ciphers.h:413-419 | the same of decryption |
| Ctr.AdvanceTwice | NXTservices/ciphers.h:364-386 | advancing twice is advancing by the sum |
| Ctr.CallsCompose | NXTservices/ciphers.h:339-411 | two calls on x and y give the bytes and the final state of one call on x + y, for every split and every state |
| Ctr.CallDetermined | NXTservices/ciphers.h:339-411 | a call has only one result, so the byte path and the block path agree |
| Ctr.CallInverts | NXTservices/ciphers.h:413-419 | decrypting from an equal state gives back the text and ends in an equal state |
| ChainFollower.ChangeReported | NXTservices/NXTservices.c:1204-1234 | recording a block reports 1 exactly when a known block id is replaced by another, and -1, with nothing changed, exactly when the height is past the array |
| ChainFollower.NxtHandler.EnsureBlocks | NXTservices/NXTservices.c:1204-1234 | the method in place computes that recording: array growth, timestamp, height, the count of changes below the processed height, and the entry |
| ChainFollower.EnsureUninterrupted | NXTservices/NXTservices.c:1343-1347 | the producer's separate moves, uninterrupted, record a block as that method does |
| ChainFollower.DepthsKept | NXTservices/NXTservices.c:1351-1357 | in every move of either thread extraconfirms equals maxpopdepth, but for the instant between the two writes, and does not decrease |
| ChainFollower.DepthNeverDecreases | NXTservices/NXTservices.c:1351-1357 | over any continuation of a run the confirmations to wait for never decrease |
| ChainFollower.RunHeights | NXTservices/NXTservices.c:1448-1497 | in every run the processed heights are consecutive, NXTheight is the last of them, and each was processed after a test that saw more than MIN_NXTCONFIRMS blocks above it, with a known block id |
| ChainFollower.ReachedStays | NXTservices/NXTservices.c:1323-1374 | in every interleaving, once NXTheight has reached h the block recorded for h is never replaced by another in a run that survives the walk-back round |
| ChainFollower.NothingCounted | NXTservices/NXTservices.c:1223-1231 | between walk-back rounds of a surviving run no change below the processed height has ever been counted |
| ChainFollower.ProcessedIsRecordedExactly | NXTservices/NXTservices.c:1460-1484 | the block processed for a height is the one recorded for it if and only if the array still held it when the height was published |
| ChainFollower.WindowIsOpen | NXTservices/NXTservices.c:1460-1484 | from every state in which a block has been read and not published, and the walk-back has rounds left, the run can go on and survive with any other block recorded for that height |
| ChainFollower.ProcessedMayDiffer | NXTservices/NXTservices.c:1432-1497 | for every number of confirmations there is a run from the start, in which the walk-back comes down one height a round to a reorganisation one deeper than that number, that survives with a processed block that is not the recorded one |
| Postings.FlowsSumToZero | NXTservices/NXTservices.c:314-352 | over every sequence of transfers, self-transfers included, the net flows of an asset over all accounts add up to 0 |
| Postings.QuantitiesSumToZero | NXTservices/NXTservices.c:340-348 | so unsigned quantities that are net flows modulo 2^64 add up to 0 modulo 2^64 |
| Postings.FlowsPermute | NXTservices/NXTservices.c:754-797 | the net flow of an account does not depend on the order of the transfers |
| Ledger.GrownAgrees | NXTservices/utils/NXTutils.h:1166-1178 | a new row of an account holds 0 and changes no other holding |
| Ledger.AdjustedAgrees | NXTservices/NXTservices.c:342-348 | adding to a row, found by its index, changes that asset's holding modulo 2^64 and its list of transactions, and nothing else |
| Ledger.Account.GetAsset | NXTservices/utils/NXTutils.h:1156-1180 | the row of an asset is found, or made, or reported as -1 |
| Ledger.Ledger.Transfer | NXTservices/NXTservices.c:314-352 | every account's book stays what was posted to it, through shared pointers too, and exactly this transfer is added; an empty address changes nothing |
| Ledger.Ledger.QuantitiesConserved | NXTservices/NXTservices.c:314-352 | in every reachable state the quantities of an asset over all accounts, genesis included, add up to 0 modulo 2^64 |
| Ledger.Ledger.LogTx | NXTservices/utils/NXTutils.h:1112-1141 | a transaction is logged once |
| Ledger.Ledger.Record | NXTservices/NXTservices.c:566-590 | a new transaction is logged and transferred, one that is known does neither, and afterwards it is known; an asset whose log was transferred stays so exactly if both addresses are there, and one whose log gives every account what the table has stays so exactly if both are there or the transaction moves nothing; all other assets stay as they are |
| Ledger.BothInStep | NXTservices/NXTservices.c:440-515 | logging and transferring the same transaction keeps an asset's log and table in step |
| Ledger.LogAloneOutOfStep | NXTservices/NXTservices.c:320-324 | logging alone, as happens for an empty address, puts them out of step as multisets of transactions |
| Ledger.LogAloneMatchesExactly | NXTservices/NXTservices.c:320-324 | after logging alone the log still gives every account what was transferred if and only if the quantity is a multiple of 2^64 or both addresses denote one account; otherwise it fails for the receiver, which is involved |
| Ledger.InStepMatches | NXTservices/NXTservices.c:754-797 | a log that was transferred, each transaction once and in whatever order, gives every account what the transfers gave it |
| Ledger.EmptyReceiver | NXTservices/NXTservices.c:314-352 | for every transaction with an empty receiver, the only one of its asset: the replay says that the sender is short of the quantity, the table that it holds nothing |
| Ledger.FirstSeenExactly | NXTservices/NXTservices.c:628-662 | the list made by the first pass holds every involved account exactly once |
| Ledger.Ledger.ClearWorkingVars | NXTservices/NXTservices.c:642-662 | both accounts of a transaction start at 0 and are listed once, also when they are the same |
| Ledger.Ledger.UpdateWorkingVars | NXTservices/NXTservices.c:664-674 | the working quantities stay the signed net flows, also when both accounts are the same |
| Ledger.Ledger.GetAssetAccts | NXTservices/NXTservices.c:754-797 | for every cutoff the two passes list the accounts involved and leave each with its signed net flow; without a cutoff that is its holding in the table if the log was transferred, each transaction once; no list for a missing, special or unknown asset |
| Ledger.Ledger.ReplayListsInvolved | NXTservices/NXTservices.c:754-797 | an account is in the list if and only if it is involved, and no account is in it twice |
| Ledger.Ledger.ReplayAgreesExactly | NXTservices/NXTservices.c:754-797 | the replay gives every listed account its holding in the table if and only if the replayed transactions and the transfers give those accounts the same net flows modulo 2^64 |
| Ledger.Ledger.ReplayAfterRecord | NXTservices/NXTservices.c:754-797 | where they agreed before a new transaction was recorded, they agree after it if and only if both addresses were there or the transaction moves nothing |
| Ledger.Ledger.ReplayAgreesWithTable | NXTservices/NXTservices.c:754-797 | with no transaction after the cutoff, if the log was transferred, each transaction once and in whatever order, every listed account's replayed quantity is its holding in the incremental table |
| History.LogSplits | NXTservices/NXTservices.c:314-352 | after any sequence of recordings from the empty ledger, an asset's log is, as a multiset, what was transferred of it and what was stranded: first recorded without one of its addresses |
| History.InStepExactly | NXTservices/NXTservices.c:314-352 | after any sequence of recordings an asset's log and its transfers are in step if and only if nothing of it was stranded |
| History.StrandedExactly | NXTservices/NXTservices.c:320-324 | something was stranded if and only if some call recorded a transaction for the first time without both addresses |
| History.WholeStrandsNothing | NXTservices/NXTservices.c:314-352 | where every recorded transaction has both addresses nothing is ever stranded |
| History.MatchesExactly | NXTservices/NXTservices.c:754-797 | after any sequence of recordings the log gives every account what the transfers gave it if and only if what was stranded gives every account 0 modulo 2^64 |
| History.RecordAll | NXTservices/NXTservices.c:566-590 | recording the transactions one after the other in a new ledger leaves exactly that state, with every invariant of the ledger |
| History.ReplayHistory | NXTservices/NXTservices.c:754-797 | after any sequence of recordings the replay without a cutoff gives every listed account its holding in the table if and only if what was stranded cancels |
| OrderBook.LiveExactly | NXTservices/orders.h:183-297 | after any calls a book holds exactly the orders whose last call added them and which trade the assets of the order that opened it |
| OrderBook.LiveFits | NXTservices/orders.h:232-297 | all orders of a book trade its two assets, whatever ids they were called with |
| OrderBook.BooksKeyed | NXTservices/orders.h:816-858 | if every call uses the id of its order's pair, every book's id is that of its pair |
| OrderBook.IdsCollide | NXTservices/orders.h:816-824 | for every pair of assets and any third one there is a fourth that makes a pair with the same id |
| OrderBook.OtherPairRefused | NXTservices/orders.h:269-283 | an order of another pair, even with the same id, is refused with -1 and nothing changes |
| OrderBook.RawOrders.Delete | NXTservices/orders.h:183-195 | the last order takes the place of the deleted one: exactly that order is gone, and no order is doubled |
| OrderBook.RawOrders.Append | NXTservices/orders.h:197-218 | an order is added once |
| OrderBook.Market.Update | NXTservices/orders.h:245-297 | the books in place change as the specification says, with its result for every direction |
| OrderBook.Market.BooksSeparate | NXTservices/orders.h:245-297 | in every reachable state no two books have the same id, no book holds an order twice, and all its orders trade its two assets |
| OrderBook.Market.AddTx | NXTservices/orders.h:826-849 | a well-formed order goes to the book of its pair and gets its transaction id only if accepted; any other changes nothing |
| OrderBook.Market.RemoveTx | NXTservices/orders.h:851-857 | a well-formed order is taken out of the book of its pair |
| Quotes.AtMostTransitive | deprecated/sorts.h:142-166 | comparing prices as exact ratios is transitive |
| Quotes.SortOrderbook | NXTservices/orders.h:394-434 | the loop splits the filled orders into bids and asks by direction and polarity, and sorts the two sides the opposite way |
| Quotes.SidesShownInOrder | NXTservices/orders.h:332-434 | for every polarity the bids are shown with prices that never rise and the asks with prices that never fall |
| Quotes.SidesShowOrders | NXTservices/orders.h:332-434 | for every polarity but 0 the two sides show exactly the orders of the two directions, each once, as amounts of the book's two assets, however equal prices are sorted |
| Quotes.PolaritySwapsSides | NXTservices/orders.h:332-434 | turning the polarity swaps the two sides as multisets of shown quotes |
| Quotes.NoPolarityNoSides | NXTservices/orders.h:383-392 | with polarity 0 both sides are empty |
| Quotes.InitOrderbookTx | NXTservices/orders.h:456-485 | an order made for a side is later shown with the amounts it was made with, and on that side if and only if it is not an ask in a book of one asset with itself; without the book it is empty |
| Quotes.CreateOrderbook | NXTservices/orders.h:436-454 | a view of a book and a feed is made exactly when the book exists and there is any order, and shows both sides sorted |
| Telepods.ProgressExactly | NXTservices/telepods.h:560-571 | every amount loses a piece that is not 0 if and only if no increment is 0 in 64-bit arithmetic |
| Telepods.EndsExactly | NXTservices/telepods.h:559-579 | for every amount the loop ends if and only if no increment is 0 in 64-bit arithmetic |
| Telepods.SomeAlwaysLeft | NXTservices/telepods.h:559-579 | otherwise something is left after any number of rounds |
| Telepods.ZeroMinimumSticks | NXTservices/telepods.h:559-579 | with a minimum of 0 every piece is 0, and for no amount does the loop end |
| Telepods.PiecesAddUp | NXTservices/telepods.h:559-579 | the pieces of a full run add up to the amount |
| Telepods.SplitterNonIncreasing | NXTservices/telepods.h:559-579 | the pieces never get larger |
| Telepods.PiecesStandard | NXTservices/telepods.h:555-571 | every piece but the last is the minimum times a standard denomination, and the last is at most the minimum |
| Telepods.RunLength | NXTservices/telepods.h:559-579 | a full run makes at most (S - 1) / (10000 m) + 19 pieces |
| Telepods.RunLengthAttained | NXTservices/telepods.h:559-579 | this bound is attained |
| Telepods.ChooseAmount | NXTservices/telepods.h:561-570 | the inner loop finds the piece |
| Telepods.MakeTraceableTelepods | NXTservices/telepods.h:553-581 | the loop ends for every minimum without a zero increment; what it made and what is left add up to the amount, and it stops early only at a piece that could not be made |

## Left out

- The accelerated branch of counter mode (NXTservices/ciphers.h:355-360): it calls foreign code, and every descriptor in the repository leaves the hook empty.
- Failures of the block cipher inside counter mode: the cipher is a function; the descriptors' own errors come only from missing arguments.
- Null-pointer argument checks everywhere, and the stack-wiping wrappers.
- The DES permutation tables of 8 by 256 entries (NXTservices/des.c:252-1296): the swap-move form is modelled; that the tables agree with it is not stated.
- The tables of the tweaked Anubis (NXTservices/anubis.c:53-456).
- The contents of the RC2 and Skipjack substitution tables are taken over and used; nothing is proved about them.
- Round keys, and the two- and four-word work arrays of DES, MULTI2, Khazad and Anubis, are values that the methods return, not buffers written in place.
- Rc2.DecryptRegisters: states the result for registers that start clean, as the loads make them; the wider statement is not needed.
- Multi2.Setup: a round count of 0 stands for 128; negative counts, for which the loops of the source count through the whole integer range, are not modelled.
- CAST5, Blowfish, Kasumi and SEED: ordinary Feistel networks, the same lemma with other functions.
- `*_test`, `*_keysize` and `*_done`: finite vectors and single branches.
- ChainFollower.RunHeights: fields are read and written one at a time in one order that all threads see; weaker memory orders are not modelled, nor are 32-bit limits of heights.
- ChainFollower.ReachedStays: is about heights within the array, and above 0, the only ones the walk-back records.
- In the first loading loop a reply that is not JSON ends the loop here; the source goes on with stale fields and writes nothing.
- What processing a block does to assets, trades and handlers, and the switch from historical to real-time mode.
- Buy and sell sums, profits, the JSON built beside them, and the withdrawal marks on transactions in the asset ledger.
- Hash tables: maps from addresses and ids; decimal addresses and ids are the numbers they denote.
- Telepods.RunLength: requires that no product of the minimum with a denomination exceeds 64 bits; beyond that the loop ends exactly if no increment is 0, and its pieces add up.
- The creation of a telepod on its chain: whether each succeeds is a parameter.
- Floating-point prices: exact ratios; the text form of a shown quote.
- Freed orders: an order that was deleted stays an object, so reuse of its memory is not modelled.
- The library sort of quotes: any result that is sorted and a permutation.
- Telepod transactions, onion packets, sockets, RPC to coin daemons, configuration, file persistence and plug-ins: input and output over libraries that are not part of this model.
